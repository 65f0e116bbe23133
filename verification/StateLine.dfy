/** The `STATE:` lines a filter or backend writes to stderr (pd_job_impl_parse_stderr) and what
    they do to the printer's state-reason list. */
module StateLine {
  import opened StateReasons

  datatype Signal = AddPrinterStateReason(reason: string) | RemovePrinterStateReason(reason: string)

  const PREFIX := "STATE:"

  predicate IsBlank(c: char) {
    c == ' ' || c == '\t'
  }

  predicate IsSeparator(c: char) {
    c == ',' || c == ' ' || c == '\t' || c == '\n'
  }

  predicate IsWordCharacter(c: char) {
    !IsSeparator(c)
  }

  predicate AllSeparators(s: string) {
    forall c :: c in s ==> c in ", \t\n"
  }

  predicate NoSeparator(s: string) {
    forall c :: c in s ==> c !in ", \t\n"
  }

  predicate AllBlanks(s: string) {
    forall c :: c in s ==> c in " \t"
  }

  lemma SeparatorsAre(c: char)
    ensures IsSeparator(c) <==> c in ", \t\n"
    ensures IsBlank(c) <==> c in " \t"
  {
    assert ", \t\n" == [',', ' ', '\t', '\n'] && " \t" == [' ', '\t'];
  }

  /** strspn and strcspn: the length of the longest prefix of characters that satisfy `p`. */
  function Span(p: char -> bool, s: string): (n: nat)
    ensures n <= |s|
    ensures forall k :: 0 <= k < n ==> p(s[k])
    ensures n < |s| ==> !p(s[n])
  {
    if s == [] || !p(s[0]) then 0 else 1 + Span(p, s[1..])
  }

  function SkipBlanks(s: string): string {
    s[Span(IsBlank, s)..]
  }

  function TokenLength(s: string): nat {
    Span(IsWordCharacter, s)
  }

  function SkipSeparators(s: string): string {
    s[Span(IsSeparator, s)..]
  }

  /** Where the next token starts. */
  function Next(s: string): (t: string)
    ensures s != [] ==> |t| < |s|
  {
    SkipSeparators(s[TokenLength(s)..])
  }

  /** The reasons the token loop takes out of the text after the sign. */
  function Tokens(s: string): seq<string>
    decreases |s|
  {
    if s == [] then []
    else [s[..TokenLength(s)]] + Tokens(Next(s))
  }

  function AllSignals(add: bool, reasons: seq<string>): (signals: seq<Signal>)
    ensures |signals| == |reasons|
  {
    seq(|reasons|, k requires 0 <= k < |reasons| =>
      if add then AddPrinterStateReason(reasons[k]) else RemovePrinterStateReason(reasons[k]))
  }

  /** The text whose first character says whether reasons come or go. */
  function Signed(line: string): string {
    if PREFIX <= line then SkipBlanks(line[|PREFIX|..]) else []
  }

  function Parse(line: string): seq<Signal> {
    var text := Signed(line);
    if text != [] && (text[0] == '+' || text[0] == '-')
    then AllSignals(text[0] == '+', Tokens(text[1..]))
    else []
  }

  lemma AllSignalsSnoc(add: bool, done: seq<string>, r: string)
    ensures AllSignals(add, done + [r])
         == AllSignals(add, done) + [if add then AddPrinterStateReason(r) else RemovePrinterStateReason(r)]
  {
  }

  /** pd_job_impl_parse_stderr: the signals it emits, in order. */
  method ParseStderr(line: string) returns (signals: seq<Signal>)
    ensures signals == Parse(line)
  {
    signals := [];
    if PREFIX <= line {
      var token := SkipBlanks(line[|PREFIX|..]);
      if token != [] && (token[0] == '+' || token[0] == '-') {
        signals := EmitReasons(token[0] == '+', token[1..]);
      }
    }
  }

  lemma TokensSnoc(done: seq<string>, token: string)
    requires token != []
    ensures done + Tokens(token) == done + [token[..TokenLength(token)]] + Tokens(Next(token))
  {
  }

  /** Its token loop, which ends on every text. */
  method EmitReasons(add: bool, text: string) returns (signals: seq<Signal>)
    ensures signals == AllSignals(add, Tokens(text))
  {
    signals := [];
    var token := text;
    ghost var done := [];
    while token != []
      invariant Tokens(text) == done + Tokens(token)
      invariant signals == AllSignals(add, done)
      decreases |token|
    {
      var end := TokenLength(token);
      var reason := token[..end];
      AllSignalsSnoc(add, done, reason);
      TokensSnoc(done, token);
      if add {
        signals := signals + [AddPrinterStateReason(reason)];
      } else {
        signals := signals + [RemovePrinterStateReason(reason)];
      }
      done := done + [reason];
      token := Next(token);
    }
    assert done == Tokens(text);
  }

  // What lines mean

  /** `reasons[0]` followed by `gaps[0]`, `reasons[1]` followed by `gaps[1]`, and so on. */
  function Join(reasons: seq<string>, gaps: seq<string>): string
    requires |gaps| == |reasons|
  {
    if reasons == [] then [] else reasons[0] + gaps[0] + Join(reasons[1..], gaps[1..])
  }

  /** Separators between the reasons; after the last one there may be none. */
  ghost predicate Gaps(gaps: seq<string>) {
    && (forall k :: 0 <= k < |gaps| ==> AllSeparators(gaps[k]))
    && (forall k :: 0 <= k < |gaps| - 1 ==> gaps[k] != [])
  }

  ghost predicate Words(reasons: seq<string>) {
    forall k :: 0 <= k < |reasons| ==> reasons[k] != [] && NoSeparator(reasons[k])
  }

  lemma {:induction false} SpanOver(p: char -> bool, a: string, b: string)
    requires forall c :: c in a ==> p(c)
    requires b == [] || !p(b[0])
    ensures Span(p, a + b) == |a|
  {
    if a == [] {
      assert a + b == b;
    } else {
      assert (a + b)[0] == a[0] && a[0] in a;
      assert (a + b)[1..] == a[1..] + b;
      SpanOver(p, a[1..], b);
    }
  }

  lemma {:induction false} FirstOfJoin(reasons: seq<string>, gaps: seq<string>)
    requires |gaps| == |reasons| > 0 && Words(reasons)
    ensures Join(reasons, gaps) != [] && !IsSeparator(Join(reasons, gaps)[0])
  {
    assert reasons[0] != [] && NoSeparator(reasons[0]);
    assert Join(reasons, gaps)[0] == reasons[0][0];
    assert reasons[0][0] in reasons[0];
  }

  lemma FirstToken(word: string, gap: string, rest: string)
    requires word != [] && NoSeparator(word) && AllSeparators(gap)
    requires gap == [] ==> rest == []
    requires rest == [] || !IsSeparator(rest[0])
    ensures Tokens(word + gap + rest) == [word] + Tokens(rest)
  {
    var s, t := word + gap + rest, gap + rest;
    assert s == word + t;
    assert t == [] || IsSeparator(t[0]) by {
      assert gap != [] ==> t[0] == gap[0] && gap[0] in gap;
    }
    SpanOver(IsWordCharacter, word, t);
    assert s[..|word|] == word && s[|word|..] == t;
    SpanOver(IsSeparator, gap, rest);
    assert t[|gap|..] == rest;
  }

  /** Splitting undoes joining: exactly the reasons that were written, in order. */
  lemma {:induction false} SplitUndoesJoin(reasons: seq<string>, gaps: seq<string>)
    requires |gaps| == |reasons| && Words(reasons) && Gaps(gaps)
    ensures Tokens(Join(reasons, gaps)) == reasons
  {
    if reasons != [] {
      if |reasons| > 1 {
        FirstOfJoin(reasons[1..], gaps[1..]);
      }
      FirstToken(reasons[0], gaps[0], Join(reasons[1..], gaps[1..]));
      SplitUndoesJoin(reasons[1..], gaps[1..]);
    }
  }

  lemma FirstTokenOf(s: string)
    requires s != []
    ensures Tokens(s) == [s[..TokenLength(s)]] + Tokens(Next(s))
    ensures NoSeparator(s[..TokenLength(s)]) && (s[..TokenLength(s)] == [] <==> IsSeparator(s[0]))
    ensures Next(s) == [] || !IsSeparator(Next(s)[0])
  {
    forall c | c in s[..TokenLength(s)] ensures c !in ", \t\n" {
      SeparatorsAre(c);
    }
  }

  lemma FirstAndRest(first: string, rest: seq<string>, all: seq<string>)
    requires all == [first] + rest && NoSeparator(first)
    requires forall k :: 0 <= k < |rest| ==> NoSeparator(rest[k])
    requires forall k :: 0 < k < |rest| ==> rest[k] != []
    requires rest == [] || rest[0] != []
    ensures forall k :: 0 <= k < |all| ==> NoSeparator(all[k])
    ensures forall k :: 0 < k < |all| ==> all[k] != []
  {
    assert forall k :: 0 < k < |all| ==> all[k] == rest[k - 1];
  }

  /** On any text at all: tokens contain no separator, and an empty one arises only first,
      exactly when the text starts with a separator. */
  lemma {:induction false} TokensOfAnyText(s: string)
    ensures forall k :: 0 <= k < |Tokens(s)| ==> NoSeparator(Tokens(s)[k])
    ensures forall k :: 0 < k < |Tokens(s)| ==> Tokens(s)[k] != []
    ensures Tokens(s) != [] && Tokens(s)[0] == [] <==> s != [] && IsSeparator(s[0])
    decreases |s|
  {
    if s != [] {
      var rest := Next(s);
      FirstTokenOf(s);
      TokensOfAnyText(rest);
      FirstAndRest(s[..TokenLength(s)], Tokens(rest), Tokens(s));
    }
  }

  lemma SignedIs(blanks: string, text: string, line: string)
    requires AllBlanks(blanks)
    requires text != [] && !IsBlank(text[0])
    requires line == "STATE:" + (blanks + text)
    ensures Signed(line) == text
  {
    assert line[|PREFIX|..] == blanks + text;
    SpanOver(IsBlank, blanks, text);
    assert (blanks + text)[|blanks|..] == text;
  }

  /** The whole line: any blanks after the prefix, a sign, then the joined reasons. */
  lemma LineRoundTrip(blanks: string, add: bool, reasons: seq<string>, gaps: seq<string>, line: string)
    requires AllBlanks(blanks)
    requires |gaps| == |reasons| && Words(reasons) && Gaps(gaps)
    requires line == "STATE:" + (blanks + ([if add then '+' else '-'] + Join(reasons, gaps)))
    ensures Parse(line) == AllSignals(add, reasons)
  {
    var sign := if add then '+' else '-';
    var text := [sign] + Join(reasons, gaps);
    SignedIs(blanks, text, line);
    assert text[1..] == Join(reasons, gaps);
    SplitUndoesJoin(reasons, gaps);
  }

  // The printer's list

  /** pd_printer_impl_job_add_state_reason and its counterpart, for one signal. */
  function Handled(rs: seq<string>, s: Signal): seq<string> {
    match s
    case AddPrinterStateReason(r) => Updated(rs, '+', r)
    case RemovePrinterStateReason(r) => Updated(rs, '-', r)
  }

  function HandledAll(rs: seq<string>, signals: seq<Signal>): seq<string>
    decreases |signals|
  {
    if signals == [] then rs else HandledAll(Handled(rs, signals[0]), signals[1..])
  }

  lemma {:induction false} LinesKeepDistinct(rs: seq<string>, signals: seq<Signal>)
    requires NoDuplicates(rs)
    ensures NoDuplicates(HandledAll(rs, signals))
    decreases |signals|
  {
    if signals != [] {
      UpdateKeepsDistinct(rs, if signals[0].AddPrinterStateReason? then '+' else '-', signals[0].reason);
      LinesKeepDistinct(Handled(rs, signals[0]), signals[1..]);
    }
  }

  lemma AllSignalsTail(add: bool, ts: seq<string>)
    requires ts != []
    ensures AllSignals(add, ts)[1..] == AllSignals(add, ts[1..])
  {
  }

  /** Adding reasons none of which is in `rs` keeps `rs` in front; what follows are some of
      them (a reason named twice truncates the tail, never `rs`). */
  lemma {:induction false} AddingAbsentKeeps(rs: seq<string>, tail: seq<string>, ts: seq<string>, all: seq<string>)
    returns (tail': seq<string>)
    requires forall t :: t in ts ==> t in all
    requires forall t :: t in all ==> t !in rs
    requires forall t :: t in tail ==> t in all
    ensures HandledAll(rs + tail, AllSignals(true, ts)) == rs + tail'
    ensures forall t :: t in tail' ==> t in all
    decreases |ts|
  {
    if ts == [] {
      tail' := tail;
    } else {
      AllSignalsTail(true, ts);
      var next := Add(tail, ts[0]);
      BeforeConcat(rs, tail, ts[0]);
      assert Add(rs + tail, ts[0]) == rs + next;
      tail' := AddingAbsentKeeps(rs, next, ts[1..], all);
    }
  }

  lemma {:induction false} BeforeConcat(rs: seq<string>, tail: seq<string>, t: string)
    requires t !in rs
    ensures Before(rs + tail, t) == rs + Before(tail, t)
  {
    if rs == [] {
      assert rs + tail == tail && rs + Before(tail, t) == Before(tail, t);
    } else {
      assert (rs + tail)[1..] == rs[1..] + tail;
      BeforeConcat(rs[1..], tail, t);
    }
  }

  /** Removing reasons filters the list by all of them. */
  lemma {:induction false} RemovingFilters(a: seq<string>, b: seq<string>, ts: seq<string>)
    ensures HandledAll(a + b, AllSignals(false, ts))
         == HandledAll(a, AllSignals(false, ts)) + HandledAll(b, AllSignals(false, ts))
    decreases |ts|
  {
    if ts != [] {
      AllSignalsTail(false, ts);
      WithoutDistributes(a, b, ts[0]);
      RemovingFilters(Remove(a, ts[0]), Remove(b, ts[0]), ts[1..]);
    }
  }

  lemma {:induction false} RemovedAreGone(rs: seq<string>, ts: seq<string>)
    ensures forall x :: x in HandledAll(rs, AllSignals(false, ts)) <==> x in rs && x !in ts
    ensures (forall t :: t in ts ==> t !in rs) ==> HandledAll(rs, AllSignals(false, ts)) == rs
    decreases |ts|
  {
    if ts != [] {
      AllSignalsTail(false, ts);
      RemoveIsFilter(rs, ts[0]);
      WithoutAbsent(rs, ts[0]);
      assert ts == [ts[0]] + ts[1..];
      RemovedAreGone(Remove(rs, ts[0]), ts[1..]);
    }
  }

  /** A '+' line and the matching '-' line restore the printer's list exactly when none of
      the reasons was in it beforehand. */
  lemma MatchingLinesRestore(rs: seq<string>, ts: seq<string>)
    ensures HandledAll(HandledAll(rs, AllSignals(true, ts)), AllSignals(false, ts)) == rs
       <==> forall t :: t in ts ==> t !in rs
  {
    var added := HandledAll(rs, AllSignals(true, ts));
    RemovedAreGone(added, ts);
    if forall t :: t in ts ==> t !in rs {
      assert rs + [] == rs;
      var tail := AddingAbsentKeeps(rs, [], ts, ts);
      RemovingFilters(rs, tail, ts);
      RemovedAreGone(rs, ts);
      RemovedAreGone(tail, ts);
      NothingLeft(HandledAll(tail, AllSignals(false, ts)));
    }
  }

  lemma NothingLeft(rs: seq<string>)
    ensures rs == [] || exists x :: x in rs
  {
    if rs != [] {
      assert rs[0] in rs;
    }
  }

  /** The same for the text of two lines. */
  lemma MatchingLineTextsRestore(rs: seq<string>, ts: seq<string>, gaps: seq<string>, plus: string, minus: string)
    requires |gaps| == |ts| && Words(ts) && Gaps(gaps)
    requires plus == "STATE:" + (" " + ("+" + Join(ts, gaps)))
    requires minus == "STATE:" + (" " + ("-" + Join(ts, gaps)))
    ensures HandledAll(HandledAll(rs, Parse(plus)), Parse(minus)) == rs
       <==> forall t :: t in ts ==> t !in rs
  {
    LineRoundTrip(" ", true, ts, gaps, plus);
    LineRoundTrip(" ", false, ts, gaps, minus);
    MatchingLinesRestore(rs, ts);
  }

  // What the text of one line does to the printer's list

  lemma {:induction false} AddingAll(rs: seq<string>, ts: seq<string>)
    requires NoDuplicates(ts) && forall t :: t in ts ==> t !in rs
    ensures HandledAll(rs, AllSignals(true, ts)) == rs + ts
    decreases |ts|
  {
    if ts == [] {
      assert rs + ts == rs;
    } else {
      AllSignalsTail(true, ts);
      assert ts[0] in ts && Handled(rs, AllSignals(true, ts)[0]) == rs + [ts[0]];
      forall t | t in ts[1..] ensures t !in rs + [ts[0]] {
        assert t in ts;
      }
      AddingAll(rs + [ts[0]], ts[1..]);
      assert rs + [ts[0]] + ts[1..] == rs + ts;
    }
  }

  /** A '+' line puts its reasons at the end of the list, in their order, when none was there... */
  lemma PlusLineAppends(rs: seq<string>, blanks: string, ts: seq<string>, gaps: seq<string>, line: string)
    requires AllBlanks(blanks) && |gaps| == |ts| && Words(ts) && Gaps(gaps)
    requires line == "STATE:" + (blanks + ("+" + Join(ts, gaps)))
    requires NoDuplicates(ts) && forall t :: t in ts ==> t !in rs
    ensures HandledAll(rs, Parse(line)) == rs + ts
  {
    LineRoundTrip(blanks, true, ts, gaps, line);
    AddingAll(rs, ts);
  }

  /** ... and cuts the list at a reason that was. */
  lemma PlusLineCuts(rs: seq<string>, blanks: string, t: string, gap: string, line: string, k: nat)
    requires AllBlanks(blanks) && Words([t]) && AllSeparators(gap)
    requires line == "STATE:" + (blanks + ("+" + (t + gap)))
    requires k < |rs| && rs[k] == t && t !in rs[..k]
    ensures HandledAll(rs, Parse(line)) == rs[..k]
  {
    assert Join([t], [gap]) == t + gap by {
      assert Join([], []) == "" && t + gap + "" == t + gap;
    }
    LineRoundTrip(blanks, true, [t], [gap], line);
    AllSignalsTail(true, [t]);
    BeforeIs(rs, t, k);
  }

  /** The entries that are not in `ts`, in order. */
  function Kept(rs: seq<string>, ts: seq<string>): (ks: seq<string>)
    ensures forall x :: x in ks <==> x in rs && x !in ts
  {
    if rs == [] then [] else (if rs[0] in ts then [] else [rs[0]]) + Kept(rs[1..], ts)
  }

  lemma RemovingFromOne(x: string, ts: seq<string>)
    ensures HandledAll([x], AllSignals(false, ts)) == if x in ts then [] else [x]
  {
    RemovedAreGone([x], ts);
    NothingLeft(HandledAll([x], AllSignals(false, ts)));
  }

  lemma {:induction false} RemovingAll(rs: seq<string>, ts: seq<string>)
    ensures HandledAll(rs, AllSignals(false, ts)) == Kept(rs, ts)
  {
    if rs == [] {
      RemovedAreGone([], ts);
      NothingLeft(HandledAll([], AllSignals(false, ts)));
    } else {
      assert rs == [rs[0]] + rs[1..];
      RemovingFilters([rs[0]], rs[1..], ts);
      RemovingFromOne(rs[0], ts);
      RemovingAll(rs[1..], ts);
    }
  }

  /** A '-' line leaves exactly the entries that it does not name, in their order. */
  lemma MinusLineFilters(rs: seq<string>, blanks: string, ts: seq<string>, gaps: seq<string>, line: string)
    requires AllBlanks(blanks) && |gaps| == |ts| && Words(ts) && Gaps(gaps)
    requires line == "STATE:" + (blanks + ("-" + Join(ts, gaps)))
    ensures HandledAll(rs, Parse(line)) == Kept(rs, ts)
    ensures forall x :: x in HandledAll(rs, Parse(line)) <==> x in rs && x !in ts
  {
    LineRoundTrip(blanks, false, ts, gaps, line);
    RemovingAll(rs, ts);
  }

  /** No other line does anything: one without the prefix, without a sign, or with neither. */
  lemma OtherLinesAreIgnored(rs: seq<string>, line: string, blanks: string, text: string)
    requires !("STATE:" <= line)
          || (AllBlanks(blanks) && line == "STATE:" + (blanks + text)
              && (text == "" || text[0] !in "+- \t"))
    ensures HandledAll(rs, Parse(line)) == rs
  {
    if "STATE:" <= line {
      if text == "" {
        SpanOver(IsBlank, blanks, text);
        assert line[|PREFIX|..] == blanks + text;
        assert (blanks + text)[|blanks|..] == text;
      } else {
        SignedIs(blanks, text, line);
      }
    }
  }

  /** One line with every separator. */
  lemma LineWithEverySeparator(rs: seq<string>)
    requires "a" !in rs && "b" !in rs && "c" !in rs && "d" !in rs
    ensures HandledAll(rs, Parse("STATE: \t+a,b c\td, \n")) == rs + ["a", "b", "c", "d"]
  {
    var ts, gaps := ["a", "b", "c", "d"], [",", " ", "\t", ", \n"];
    JoinFour(ts, gaps);
    PlusLineAppends(rs, " \t", ts, gaps, "STATE: \t+a,b c\td, \n");
  }

  lemma JoinFour(ts: seq<string>, gaps: seq<string>)
    requires |ts| == |gaps| == 4
    ensures Join(ts, gaps) == ts[0] + gaps[0] + (ts[1] + gaps[1] + (ts[2] + gaps[2] + (ts[3] + gaps[3])))
  {
    JoinFrom(ts, gaps, 3);
    JoinFrom(ts, gaps, 2);
    JoinFrom(ts, gaps, 1);
    assert Join(ts[4..], gaps[4..]) == "" && ts[3] + gaps[3] + "" == ts[3] + gaps[3];
  }

  lemma JoinFrom(ts: seq<string>, gaps: seq<string>, k: nat)
    requires k < |ts| == |gaps|
    ensures Join(ts[k..], gaps[k..]) == ts[k] + gaps[k] + Join(ts[k + 1..], gaps[k + 1..])
  {
    assert ts[k..][1..] == ts[k + 1..] && gaps[k..][1..] == gaps[k + 1..];
  }
}

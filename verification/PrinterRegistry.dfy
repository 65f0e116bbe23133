/** The engine's registry of printers: choosing an id for a new printer, exporting it under its
    object path, removing it and finding it by path (pd_engine_add_printer,
    pd_engine_remove_printer, pd_engine_get_printer_by_path). */
module PrinterRegistry {
  import opened StateReasons

  const PATH_PREFIX := "/org/freedesktop/printerd/printer/"

  // Ids

  predicate Allowed(c: char) {
    'A' <= c <= 'Z' || 'a' <= c <= 'z' || '0' <= c <= '9' || c == '_'
  }

  predicate AllowedText(s: string) {
    forall i :: 0 <= i < |s| ==> Allowed(s[i])
  }

  /** They are the characters listed in the source, and no others. */
  lemma AllowedAreListed(c: char)
    ensures Allowed(c) <==>
              c in "ABCDEFGHIJKLMNOPQRSTUVWXYZ" || c in "abcdefghijklmnopqrstuvwxyz" || c in "1234567890_"
  {
    CapitalsAreListed(c);
    LettersAreListed(c);
    OthersAreListed(c);
  }

  lemma CapitalsAreListed(c: char)
    ensures 'A' <= c <= 'Z' <==> c in "ABCDEFGHIJKLMNOPQRSTUVWXYZ"
  {
    if 'A' <= c <= 'Z' {
      assert "ABCDEFGHIJKLMNOPQRSTUVWXYZ"[c as int - 'A' as int] == c;
    }
  }

  lemma LettersAreListed(c: char)
    ensures 'a' <= c <= 'z' <==> c in "abcdefghijklmnopqrstuvwxyz"
  {
    if 'a' <= c <= 'z' {
      assert "abcdefghijklmnopqrstuvwxyz"[c as int - 'a' as int] == c;
    }
  }

  lemma OthersAreListed(c: char)
    ensures '0' <= c <= '9' || c == '_' <==> c in "1234567890_"
  {
    if c == '0' || c == '_' {
      assert "1234567890_"[9] == '0' && "1234567890_"[10] == '_';
    } else if '1' <= c <= '9' {
      assert "1234567890_"[c as int - '1' as int] == c;
    }
  }

  /** `id` is `name` with an underscore for every character that is no letter, digit or underscore. */
  ghost predicate Sanitized(name: string, id: string) {
    && |id| == |name|
    && forall i :: 0 <= i < |name| ==>
         id[i] == if 'A' <= name[i] <= 'Z' || 'a' <= name[i] <= 'z' || '0' <= name[i] <= '9' then name[i] else '_'
  }

  /** g_strcanon with the valid characters of an id. */
  function Canon(name: string): (id: string)
    ensures Sanitized(name, id) && AllowedText(id)
    ensures id == name <==> AllowedText(name)
  {
    if name == "" then ""
    else
      var rest := Canon(name[1..]);
      assert name == [name[0]] + name[1..];
      [if Allowed(name[0]) then name[0] else '_'] + rest
  }

  function Digit(n: nat): char
    requires n < 10
  {
    '0' + n as char
  }

  /** The %d of a number that is not negative. */
  function Decimal(n: nat): (s: string)
    ensures s != "" && AllowedText(s)
    ensures forall i :: 0 <= i < |s| ==> '0' <= s[i] <= '9'
    ensures s[0] == '0' ==> n == 0 && |s| == 1
  {
    if n < 10 then [Digit(n)] else Decimal(n / 10) + [Digit(n % 10)]
  }

  function Value(s: string): int {
    if s == "" then 0 else 10 * Value(s[..|s| - 1]) + (s[|s| - 1] as int - '0' as int)
  }

  lemma {:induction false} DecimalValue(n: nat)
    ensures Value(Decimal(n)) == n
  {
    if n >= 10 {
      DecimalValue(n / 10);
      assert Decimal(n)[..|Decimal(n)| - 1] == Decimal(n / 10);
    } else {
      assert Decimal(n)[..0] == "";
    }
  }

  function Suffixed(base: string, i: nat): string {
    base + "_" + Decimal(i)
  }

  lemma SuffixesDiffer(base: string, i: nat, j: nat)
    requires i != j
    ensures Suffixed(base, i) != Suffixed(base, j)
  {
    DecimalValue(i);
    DecimalValue(j);
    assert Suffixed(base, i)[|base| + 1..] == Decimal(i);
    assert Suffixed(base, j)[|base| + 1..] == Decimal(j);
  }

  // The choice of an id

  const FIRST_SUFFIX := 2
  const SUFFIX_LIMIT := 1000

  /** The first suffix from `i` upwards that makes a free id, SUFFIX_LIMIT when there is none. */
  function FirstFree(keys: set<string>, base: string, i: nat): (k: nat)
    requires FIRST_SUFFIX <= i <= SUFFIX_LIMIT
    ensures i <= k <= SUFFIX_LIMIT
    ensures k < SUFFIX_LIMIT ==> Suffixed(base, k) !in keys
    ensures forall j :: i <= j < k ==> Suffixed(base, j) in keys
    decreases SUFFIX_LIMIT - i
  {
    if i == SUFFIX_LIMIT || Suffixed(base, i) !in keys then i else FirstFree(keys, base, i + 1)
  }

  /** The id for a new printer whose name makes `base`, unless everything is taken. */
  function ChooseId(keys: set<string>, base: string): Option<string> {
    if base !in keys then Some(base)
    else
      var i := FirstFree(keys, base, FIRST_SUFFIX);
      if i == SUFFIX_LIMIT then None else Some(Suffixed(base, i))
  }

  ghost predicate SmallestFreeSuffix(keys: set<string>, base: string, i: nat) {
    && 2 <= i <= 999 && Suffixed(base, i) !in keys
    && forall j :: 2 <= j < i ==> Suffixed(base, j) in keys
  }

  /** The chosen id is the name's own id, or when that is taken the one with the smallest free
      suffix in 2..999. */
  lemma ChosenIdIs(keys: set<string>, base: string, x: string)
    ensures ChooseId(keys, base) == Some(x) <==>
              || (x == base && base !in keys)
              || (base in keys && exists i :: SmallestFreeSuffix(keys, base, i) && x == Suffixed(base, i))
  {
    if base in keys {
      var k := FirstFree(keys, base, FIRST_SUFFIX);
      if k < SUFFIX_LIMIT {
        assert SmallestFreeSuffix(keys, base, k);
        forall i | SmallestFreeSuffix(keys, base, i) ensures i == k {
        }
      }
    }
  }

  /** What an add can find taken. */
  ghost function Candidates(base: string, m: nat): set<string> {
    if m <= FIRST_SUFFIX then {base} else Candidates(base, m - 1) + {Suffixed(base, m - 1)}
  }

  lemma {:induction false} CandidatesAre(base: string, m: nat, x: string)
    requires FIRST_SUFFIX <= m
    ensures x in Candidates(base, m) <==> x == base || exists i :: FIRST_SUFFIX <= i < m && x == Suffixed(base, i)
  {
    if m > FIRST_SUFFIX {
      CandidatesAre(base, m - 1, x);
    }
  }

  lemma {:induction false} CountCandidates(base: string, m: nat)
    requires FIRST_SUFFIX <= m
    ensures |Candidates(base, m)| == m - 1
  {
    if m > FIRST_SUFFIX {
      CountCandidates(base, m - 1);
      CandidatesAre(base, m - 1, Suffixed(base, m - 1));
      forall i | FIRST_SUFFIX <= i < m - 1 ensures Suffixed(base, i) != Suffixed(base, m - 1) {
        SuffixesDiffer(base, i, m - 1);
      }
    }
  }

  lemma SubsetCount(a: set<string>, b: set<string>)
    requires a <= b
    ensures |a| <= |b|
  {
    assert b == a + (b - a);
  }

  /** No id is found exactly when the name's own and all 998 others are taken... */
  lemma NoneIffAllTaken(keys: set<string>, base: string)
    ensures ChooseId(keys, base) == None <==> Candidates(base, SUFFIX_LIMIT) <= keys
  {
    forall x ensures x in Candidates(base, SUFFIX_LIMIT) <==>
                       x == base || exists i :: FIRST_SUFFIX <= i < SUFFIX_LIMIT && x == Suffixed(base, i) {
      CandidatesAre(base, SUFFIX_LIMIT, x);
    }
    var k := FirstFree(keys, base, FIRST_SUFFIX);
    if k < SUFFIX_LIMIT {
      assert Suffixed(base, k) in Candidates(base, SUFFIX_LIMIT);
    }
  }

  /** ... so with fewer than 999 printers there is always one. */
  lemma RoomForAnother(keys: set<string>, base: string)
    requires |keys| < 999
    ensures ChooseId(keys, base).Some?
  {
    NoneIffAllTaken(keys, base);
    if Candidates(base, SUFFIX_LIMIT) <= keys {
      CountCandidates(base, SUFFIX_LIMIT);
      SubsetCount(Candidates(base, SUFFIX_LIMIT), keys);
    }
  }

  /** The text of an id made from a name: the name with underscores, and perhaps a number. */
  ghost predicate IdFor(name: string, id: string) {
    && |name| <= |id| && Sanitized(name, id[..|name|])
    && (id[|name|..] == "" || exists i :: 2 <= i <= 999 && id[|name|..] == "_" + Decimal(i))
  }

  lemma SuffixedFor(name: string, base: string, i: nat)
    requires Sanitized(name, base) && 2 <= i <= 999
    ensures IdFor(name, Suffixed(base, i))
  {
    var x, d := Suffixed(base, i), Decimal(i);
    assert x == base + ("_" + d);
    assert x[..|name|] == base && x[|name|..] == "_" + d;
  }

  lemma ChosenIdFor(keys: set<string>, name: string, base: string)
    requires Sanitized(name, base) && ChooseId(keys, base).Some?
    ensures IdFor(name, ChooseId(keys, base).value)
  {
    if base in keys {
      SuffixedFor(name, base, FirstFree(keys, base, FIRST_SUFFIX));
    } else {
      assert base[..|name|] == base && base[|name|..] == "";
    }
  }

  lemma SpaceIsReplaced()
    ensures Canon("HP 1") == "HP_1"
  {
  }

  lemma DecimalDigit(n: nat)
    requires n < 10
    ensures Decimal(n) == ["0123456789"[n]]
  {
  }

  lemma TwoAndThree(two: string, three: string)
    requires two == Suffixed("HP_1", 2) && three == Suffixed("HP_1", 3)
    ensures two == "HP_1_2" && three == "HP_1_3" && two[5] != three[5]
  {
    DecimalDigit(2);
    DecimalDigit(3);
  }

  /** For example, with two printers of that name already there. */
  lemma ThirdOfTheName()
    ensures ChooseId({"HP_1", "HP_1_2"}, Canon("HP 1")) == Some("HP_1_3")
  {
    SpaceIsReplaced();
    var two, three := Suffixed("HP_1", 2), Suffixed("HP_1", 3);
    TwoAndThree(two, three);
    TakesThird({"HP_1", two}, "HP_1");
  }

  lemma TakesThird(keys: set<string>, base: string)
    requires base in keys && Suffixed(base, 2) in keys && Suffixed(base, 3) !in keys
    ensures ChooseId(keys, base) == Some(Suffixed(base, 3))
  {
    ChosenIdIs(keys, base, Suffixed(base, 3));
    assert SmallestFreeSuffix(keys, base, 3);
  }

  lemma ChosenIdIsNew(keys: set<string>, base: string)
    requires AllowedText(base) && ChooseId(keys, base).Some?
    ensures ChooseId(keys, base).value !in keys && AllowedText(ChooseId(keys, base).value)
  {
  }

  // Paths

  /** `id` is what follows the last '/' of `path`. */
  predicate EndsIn(path: string, id: string) {
    '/' !in id && |id| < |path| && path[|path| - |id| - 1] == '/' && path[|path| - |id|..] == id
  }

  /** The text after the last '/' (g_strrstr), if there is one. */
  function LastComponent(path: string): (last: Option<string>)
    ensures last.None? <==> '/' !in path
    ensures last.Some? ==> EndsIn(path, last.value)
  {
    if path == "" then None
    else
      var rest := LastComponent(path[1..]);
      if rest.Some? then rest
      else if path[0] == '/' then Some(path[1..])
      else None
  }

  lemma EndsInOne(path: string, a: string, b: string)
    requires EndsIn(path, a) && EndsIn(path, b)
    ensures a == b
  {
    if |a| < |b| {
      SeparatorInside(path, a, b);
    } else if |b| < |a| {
      SeparatorInside(path, b, a);
    }
  }

  lemma SeparatorInside(path: string, a: string, b: string)
    requires EndsIn(path, a) && |a| < |b| < |path| && path[|path| - |b|..] == b
    ensures '/' in b
  {
    assert b[|b| - |a| - 1] == path[|path| - |a| - 1];
  }

  lemma OwnPath(id: string)
    requires AllowedText(id)
    ensures EndsIn(PATH_PREFIX + id, id)
  {
    var path := PATH_PREFIX + id;
    assert path[|path| - |id| - 1] == PATH_PREFIX[|PATH_PREFIX| - 1];
  }

  lemma PathsDiffer(a: string, b: string)
    requires PATH_PREFIX + a == PATH_PREFIX + b
    ensures a == b
  {
    assert (PATH_PREFIX + a)[|PATH_PREFIX|..] == a;
    assert (PATH_PREFIX + b)[|PATH_PREFIX|..] == b;
  }

  // The objects

  class Printer {
    const name: string
    var id: Option<string>

    constructor (name: string)
      ensures this.name == name && id == None
    {
      this.name := name;
      id := None;
    }

    /** pd_printer_impl_get_id: made from the name when first asked for, and kept. */
    method GetId() returns (text: string)
      modifies this`id
      ensures text == if old(id).Some? then old(id).value else Canon(name)
      ensures id == Some(text)
      ensures old(id) == None ==> Sanitized(name, text)
    {
      if id == None {
        id := Some(Canon(name));
      }
      text := id.value;
    }

    method SetId(text: string)
      modifies this`id
      ensures id == Some(text)
    {
      id := Some(text);
    }
  }

  class Engine {
    var idToPrinter: map<string, Printer>
    /** The printers exported on the bus, by object path. */
    var exported: map<string, Printer>

    ghost predicate Valid()
      reads this, idToPrinter.Values
    {
      && (forall key :: key in idToPrinter ==> idToPrinter[key].id == Some(key) && AllowedText(key))
      && (forall key :: key in idToPrinter && key != "" ==> PATH_PREFIX + key in exported)
      && (forall path :: path in exported ==> Exports(path))
    }

    /** An exported path is that of a registered printer. The empty id makes no valid object path,
        so a printer with that id is registered but not exported. */
    ghost predicate Exports(path: string)
      requires path in exported
      reads this
    {
      exists key :: key in idToPrinter && key != "" && path == PATH_PREFIX + key && exported[path] == idToPrinter[key]
    }

    constructor ()
      ensures Valid() && idToPrinter == map[] && exported == map[]
    {
      idToPrinter, exported := map[], map[];
    }

    /** The loop of pd_engine_add_printer over suffixes. */
    method FindSuffix(base: string) returns (i: nat, objid: string)
      ensures i == FirstFree(idToPrinter.Keys, base, FIRST_SUFFIX)
      ensures i < SUFFIX_LIMIT ==> objid == Suffixed(base, i)
    {
      i := FIRST_SUFFIX;
      objid := "";
      while i < SUFFIX_LIMIT
        invariant FIRST_SUFFIX <= i <= SUFFIX_LIMIT
        invariant FirstFree(idToPrinter.Keys, base, FIRST_SUFFIX) == FirstFree(idToPrinter.Keys, base, i)
      {
        objid := Suffixed(base, i);
        if objid !in idToPrinter {
          break;
        }
        i := i + 1;
      }
    }

    /** An add never replaces an entry. The new printer is registered and exported under the
        chosen id; if there is none it is returned all the same, but not registered. */
    method AddPrinter(name: string, driverRefused: bool) returns (printer: Printer?)
      requires Valid()
      modifies this
      ensures Valid() && (printer == null <==> driverRefused)
      ensures printer != null ==> fresh(printer) && printer.name == name
      ensures var chosen := ChooseId(old(idToPrinter).Keys, Canon(name));
              if printer == null || chosen == None then
                idToPrinter == old(idToPrinter) && exported == old(exported)
              else
                && printer.id == chosen
                && idToPrinter == old(idToPrinter)[chosen.value := printer]
                && exported == if chosen.value == "" then old(exported)
                               else old(exported)[PATH_PREFIX + chosen.value := printer]
      ensures printer != null && |old(idToPrinter)| < 999 ==> idToPrinter != old(idToPrinter)
      ensures printer != null && idToPrinter != old(idToPrinter) ==>
                && printer.id.Some? && IdFor(name, printer.id.value)
                && printer.id.value !in old(idToPrinter) && idToPrinter == old(idToPrinter)[printer.id.value := printer]
                && (printer.id.value != "" ==>
                      var path := "/org/freedesktop/printerd/printer/" + printer.id.value;
                      path in exported && exported[path] == printer)
    {
      var p := new Printer(name);
      if driverRefused {
        return null;
      }
      var found := SettleId(p);
      if found {
        Register(p.id.value, p);
      }
      return p;
    }

    lemma SettledId(name: string)
      ensures var chosen := ChooseId(idToPrinter.Keys, Canon(name));
              && (chosen.Some? ==>
                    IdFor(name, chosen.value) && chosen.value !in idToPrinter && AllowedText(chosen.value))
              && (|idToPrinter| < 999 ==> chosen.Some?)
    {
      var keys := idToPrinter.Keys;
      if ChooseId(keys, Canon(name)).Some? {
        ChosenIdIsNew(keys, Canon(name));
        ChosenIdFor(keys, name, Canon(name));
      }
      if |keys| < 999 {
        RoomForAnother(keys, Canon(name));
      }
    }

    /** The new printer's id: its own, or one with a suffix. */
    method SettleId(p: Printer) returns (found: bool)
      requires p.id == None
      modifies p`id
      ensures found == ChooseId(idToPrinter.Keys, Canon(p.name)).Some?
      ensures found ==> p.id == ChooseId(idToPrinter.Keys, Canon(p.name))
      ensures found ==> IdFor(p.name, p.id.value) && p.id.value !in idToPrinter && AllowedText(p.id.value)
      ensures |idToPrinter| < 999 ==> found
    {
      SettledId(p.name);
      var objid := p.GetId();
      if objid in idToPrinter {
        var i, other := FindSuffix(objid);
        if i == SUFFIX_LIMIT {
          return false;
        }
        p.SetId(other);
      }
      found := true;
    }

    method Register(objid: string, p: Printer)
      requires Valid() && objid !in idToPrinter && AllowedText(objid) && p.id == Some(objid)
      modifies this
      ensures Valid() && idToPrinter == old(idToPrinter)[objid := p]
      ensures exported == if objid == "" then old(exported) else old(exported)[PATH_PREFIX + objid := p]
    {
      idToPrinter := idToPrinter[objid := p];
      if objid != "" {
        exported := exported[PATH_PREFIX + objid := p];
      }
      forall path | path in exported ensures Exports(path) {
        if path != PATH_PREFIX + objid {
          var key :| key in old(idToPrinter) && key != "" && path == PATH_PREFIX + key
                       && exported[path] == old(idToPrinter)[key];
          assert idToPrinter[key] == old(idToPrinter)[key];
        } else {
          assert objid in idToPrinter;
        }
      }
    }

    method RemovePrinter(path: string) returns (ok: bool)
      requires Valid()
      modifies this, exported.Values`id
      ensures Valid() && ok == (path in old(exported))
      ensures !ok ==> idToPrinter == old(idToPrinter) && exported == old(exported)
      ensures forall printer :: printer in old(exported).Values ==> printer.id == old(printer.id)
      ensures ok ==> exists key :: key in old(idToPrinter) && path == PATH_PREFIX + key
                       && idToPrinter == old(idToPrinter) - {key} && exported == old(exported) - {path}
    {
      if path !in exported {
        return false;
      }
      var printer := exported[path];
      ghost var key :| key in idToPrinter && key != "" && path == PATH_PREFIX + key && printer == idToPrinter[key];
      var id := printer.GetId();
      Forget(path, id);
      return true;
    }

    method Forget(path: string, id: string)
      requires Valid() && path == PATH_PREFIX + id && path in exported
      modifies this
      ensures Valid() && idToPrinter == old(idToPrinter) - {id} && exported == old(exported) - {path}
    {
      exported := exported - {path};
      idToPrinter := idToPrinter - {id};
      forall p | p in exported ensures Exports(p) {
        var key :| key in old(idToPrinter) && key != "" && p == PATH_PREFIX + key && old(exported)[p] == old(idToPrinter)[key];
        assert key in idToPrinter;
      }
      forall key | key in idToPrinter && key != "" ensures PATH_PREFIX + key in exported {
        if PATH_PREFIX + key == path {
          PathsDiffer(key, id);
        }
      }
    }

    /** What a lookup promises: the registered printer whose id follows the last '/' of the path,
        and null only when no registered id does. */
    ghost predicate Answers(path: string, printer: Printer?)
      reads this
    {
      if printer == null then forall id :: id in idToPrinter ==> !EndsIn(path, id)
      else exists id :: id in idToPrinter && EndsIn(path, id) && idToPrinter[id] == printer
    }

    method GetPrinterByPath(path: string) returns (printer: Printer?)
      requires Valid()
      ensures Answers(path, printer)
    {
      var last := LastComponent(path);
      if last == None {
        return null;
      }
      forall id | EndsIn(path, id) ensures id == last.value {
        EndsInOne(path, id, last.value);
      }
      printer := if last.value in idToPrinter then idToPrinter[last.value] else null;
    }

    /** A registered printer is found under its object path, and under a path exactly when that
        ends in its id. */
    lemma FoundByOwnPath(id: string, path: string, printer: Printer?)
      requires Valid() && id in idToPrinter && Answers(path, printer)
      ensures EndsIn(PATH_PREFIX + id, id)
      ensures printer == idToPrinter[id] <==> EndsIn(path, id)
    {
      OwnPath(id);
      if printer != null {
        var found :| found in idToPrinter && EndsIn(path, found) && idToPrinter[found] == printer;
        if EndsIn(path, id) {
          EndsInOne(path, id, found);
        }
      }
    }
  }
}

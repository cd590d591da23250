/** The option grammar permission_reconnect.py reads service arguments with: which words are
    permission overrides, alone or with the word after them. Everything here holds of any such
    grammar. */
module Options {
  import opened Sequences

  datatype Failure = MalformedSandbox | MalformedConfig | CompactConfig

  /** What a word announces at the beginning of a unit. */
  datatype Kind =
    | Valued    // an override, the next word its value
    | Alone     // an override by itself
    | Setting   // a pair, an override if its value sets a permission
    | Compact   // a form that is refused
    | Plain

  datatype Grammar = Grammar(
    valued: set<string>,     // overrides with a value
    inline: string,          // the beginning of an override that contains its value
    alone: set<string>,      // overrides by themselves
    pairs: set<string>,      // options whose value is a setting
    compact: set<string>,    // beginnings of words that are refused
    keys: set<string>,       // the keys that set a permission
    keyPrefix: string)       // or the beginning of one
  {
    function KindOf(word: string): Kind {
      if word in valued then Valued
      else if inline <= word || word in alone then Alone
      else if word in pairs then Setting
      else if exists c | c in compact :: c <= word then Compact
      else Plain
    }

    predicate Permission(setting: string) {
      Key(setting) in keys || keyPrefix <= Key(setting)
    }
  }

  /** What `str.strip` removes. */
  predicate Blank(c: char) {
    || '\U{9}' <= c <= '\U{D}' || '\U{1C}' <= c <= '\U{20}' || c in {'\U{85}', '\U{A0}', '\U{1680}'}
    || '\U{2000}' <= c <= '\U{200A}' || c in {'\U{2028}', '\U{2029}', '\U{202F}', '\U{205F}', '\U{3000}'}
  }

  function Strip(s: string): string {
    if s == [] then s
    else if Blank(s[0]) then Strip(s[1..])
    else if Blank(Last(s)) then Strip(Front(s))
    else s
  }

  function BeforeEquals(s: string): string {
    if s == [] || s[0] == '=' then [] else [s[0]] + BeforeEquals(s[1..])
  }

  /** The key a `-c` argument sets. */
  function Key(setting: string): string {
    Strip(BeforeEquals(setting))
  }

  lemma {:induction false} BeforeFirstEquals(key: string, value: string)
    requires '=' !in key
    ensures BeforeEquals(key + "=" + value) == key
  {
    if key == [] {
      assert (key + "=" + value)[0] == '=';
    } else {
      BeforeFirstEquals(key[1..], value);
      assert (key + "=" + value)[1..] == key[1..] + "=" + value;
    }
  }

  predicate Bare(key: string) {
    '=' !in key && key != [] && key[0] != '-' && !Blank(key[0]) && !Blank(Last(key))
  }

  lemma KeyOf(key: string, value: string)
    requires Bare(key)
    ensures Key(key + "=" + value) == key
  {
    BeforeFirstEquals(key, value);
  }

  lemma {:induction false} StripKeepsHead(s: string)
    requires s != [] && !Blank(s[0])
    ensures Strip(s) != [] && Strip(s)[0] == s[0]
  {
    if Blank(Last(s)) {
      StripKeepsHead(Front(s));
    }
  }

  /** The key of a word that begins with a dash does too. */
  lemma DashedKey(word: string)
    requires word != [] && word[0] == '-'
    ensures Key(word) != [] && Key(word)[0] == '-'
  {
    assert BeforeEquals(word)[0] == '-';
    StripKeepsHead(BeforeEquals(word));
  }

  /** The arguments fall into units of one or two words. */
  datatype Unit = Override(words: seq<string>) | Other(words: seq<string>)

  /** The first unit of a nonempty argument list. */
  function First(args: seq<string>, g: Grammar): (unit: Result<Unit, Failure>)
    requires args != []
    ensures unit.Ok? ==> 1 <= |unit.value.words| <= |args| && unit.value.words == args[..|unit.value.words|]
  {
    match g.KindOf(args[0])
    case Valued => if |args| < 2 then Err(MalformedSandbox) else Ok(Override(args[..2]))
    case Alone => Ok(Override(args[..1]))
    case Setting =>
      if |args| < 2 then Err(MalformedConfig)
      else if g.Permission(args[1]) then Ok(Override(args[..2]))
      else Ok(Other(args[..2]))
    case Compact => Err(CompactConfig)
    case Plain => Ok(Other(args[..1]))
  }

  function Units(args: seq<string>, g: Grammar): Result<seq<Unit>, Failure> {
    if args == [] then Ok([])
    else
      var unit := First(args, g);
      if unit.Err? then Err(unit.error)
      else
        var rest := Units(args[|unit.value.words|..], g);
        if rest.Err? then rest else Ok([unit.value] + rest.value)
  }

  function Words(units: seq<Unit>): seq<string> {
    if units == [] then [] else units[0].words + Words(units[1..])
  }

  function Others(units: seq<Unit>): seq<Unit> {
    if units == [] then []
    else if units[0].Other? then [units[0]] + Others(units[1..])
    else Others(units[1..])
  }

  function Overrides(units: seq<Unit>): seq<Unit> {
    if units == [] then []
    else if units[0].Override? then [units[0]] + Overrides(units[1..])
    else Overrides(units[1..])
  }

  /** Python's `out[1:1] = added`. */
  function InsertAtOne<T>(out: seq<T>, added: seq<T>): seq<T> {
    if out == [] then added else [out[0]] + added + out[1..]
  }

  function Placed<T>(out: seq<T>, added: seq<T>, atEnd: bool): seq<T> {
    if atEnd then out + added else InsertAtOne(out, added)
  }

  function Kept(args: seq<string>, g: Grammar): Result<seq<string>, Failure> {
    var units := Units(args, g);
    if units.Err? then Err(units.error) else Ok(Words(Others(units.value)))
  }

  /** All overrides dropped, and the written ones put in. */
  function Replaced(args: seq<string>, written: seq<Unit>, g: Grammar, atEnd: bool): Result<seq<string>, Failure> {
    var kept := Kept(args, g);
    if kept.Err? then kept else Ok(Placed(kept.value, Words(written), atEnd))
  }

  /** `kept` in front of what the rest of the arguments keeps. */
  function After(kept: seq<string>, rest: Result<seq<string>, Failure>): Result<seq<string>, Failure> {
    if rest.Err? then rest else Ok(kept + rest.value)
  }

  lemma KeptFirst(args: seq<string>, g: Grammar)
    requires args != []
    ensures var unit := First(args, g);
      Kept(args, g) == (
        if unit.Err? then Err(unit.error)
        else After(if unit.value.Other? then unit.value.words else [], Kept(args[|unit.value.words|..], g)))
  {
    var unit := First(args, g);
    if unit.Ok? {
      var rest := Units(args[|unit.value.words|..], g);
      if rest.Ok? {
        var units := [unit.value] + rest.value;
        assert units[1..] == rest.value;
        if unit.value.Other? {
          assert Others(units) == [unit.value] + Others(rest.value);
          assert Others(units)[1..] == Others(rest.value);
        } else {
          assert Others(units) == Others(rest.value);
          assert [] + Words(Others(rest.value)) == Words(Others(rest.value));
        }
      }
    }
  }

  lemma AfterTwice(out: seq<string>, kept: seq<string>, rest: Result<seq<string>, Failure>)
    ensures After(out, After(kept, rest)) == After(out + kept, rest)
    ensures After([], rest) == rest
  {
    if rest.Ok? {
      assert out + (kept + rest.value) == (out + kept) + rest.value && [] + rest.value == rest.value;
    }
  }

  /** The loop of `policy_args`. */
  method KeepOthers(args: seq<string>, g: Grammar) returns (result: Result<seq<string>, Failure>)
    ensures result == Kept(args, g)
  {
    var out: seq<string>, index := [], 0;
    assert args[0..] == args;
    AfterTwice([], [], Kept(args, g));
    while index < |args|
      invariant 0 <= index <= |args|
      invariant Kept(args, g) == After(out, Kept(args[index..], g))
    {
      ghost var rest := args[index..];
      KeptFirst(rest, g);
      assert rest[1..] == args[index + 1..] && rest[..1] == [args[index]];
      match g.KindOf(args[index]) {
        case Valued =>
          if index + 1 >= |args| {
            return Err(MalformedSandbox);
          }
          assert rest[2..] == args[index + 2..];
          AfterTwice(out, [], Kept(args[index + 2..], g));
          index := index + 2;
        case Alone =>
          AfterTwice(out, [], Kept(args[index + 1..], g));
          index := index + 1;
        case Setting =>
          if index + 1 >= |args| {
            return Err(MalformedConfig);
          }
          assert rest[2..] == args[index + 2..] && rest[..2] == args[index..index + 2];
          AfterTwice(out, args[index..index + 2], Kept(args[index + 2..], g));
          AfterTwice(out, [], Kept(args[index + 2..], g));
          if !g.Permission(args[index + 1]) {
            out := out + args[index..index + 2];
          }
          index := index + 2;
        case Compact =>
          return Err(CompactConfig);
        case Plain =>
          AfterTwice(out, [args[index]], Kept(args[index + 1..], g));
          out := out + [args[index]];
          index := index + 1;
      }
    }
    assert args[index..] == [] && Kept([], g) == Ok([]) && out + [] == out;
    result := Ok(out);
  }

  // ----- what a rewrite leaves

  /** A unit that reads as itself wherever a unit begins. */
  predicate Proper(u: Unit, g: Grammar) {
    u.words != [] && First(u.words, g) == Ok(u)
  }

  lemma FirstProper(u: Unit, rest: seq<string>, g: Grammar)
    requires Proper(u, g)
    ensures First(u.words + rest, g) == Ok(u)
    ensures (u.words + rest)[|u.words|..] == rest
  {
    assert (u.words + rest)[0] == u.words[0];
    assert (u.words + rest)[..|u.words|] == u.words;
    assert u.words[..|u.words|] == u.words;
  }

  lemma {:induction false} UnitsOfWords(units: seq<Unit>, g: Grammar)
    requires forall u | u in units :: Proper(u, g)
    ensures Units(Words(units), g) == Ok(units)
  {
    if units != [] {
      UnitsOfWords(units[1..], g);
      FirstProper(units[0], Words(units[1..]), g);
      assert Words(units) != [] && units == [units[0]] + units[1..];
    }
  }

  /** A unit read off the front is proper. */
  lemma FirstAlone(args: seq<string>, g: Grammar)
    requires args != [] && First(args, g).Ok?
    ensures Proper(First(args, g).value, g)
  {
    var words := First(args, g).value.words;
    assert words[0] == args[0] && words[..|words|] == words;
    assert |words| == 2 ==> words[1] == args[1];
  }

  /** Reading units off arguments loses nothing. */
  lemma UnitsFirst(args: seq<string>, g: Grammar)
    requires args != [] && Units(args, g).Ok?
    ensures First(args, g).Ok?
    ensures var unit := First(args, g).value;
      var rest := Units(args[|unit.words|..], g);
      rest.Ok? && Units(args, g).value == [unit] + rest.value
  {
  }

  lemma WordsFirst(unit: Unit, rest: seq<Unit>)
    ensures Words([unit] + rest) == unit.words + Words(rest)
  {
    assert ([unit] + rest)[1..] == rest;
  }

  lemma {:induction false} WordsOfUnits(args: seq<string>, g: Grammar)
    requires Units(args, g).Ok?
    ensures var units := Units(args, g).value;
      Words(units) == args && forall u | u in units :: Proper(u, g)
  {
    if args != [] {
      var unit := First(args, g).value;
      var n := |unit.words|;
      UnitsFirst(args, g);
      FirstAlone(args, g);
      WordsOfUnits(args[n..], g);
      WordsFirst(unit, Units(args[n..], g).value);
      assert args[..n] + args[n..] == args;
    }
  }

  lemma Regroup<T>(a: seq<T>, b: seq<T>, c: seq<T>)
    ensures a + b + c == a + (b + c)
  {
  }

  lemma {:induction false} WordsAppend(a: seq<Unit>, b: seq<Unit>)
    ensures Words(a + b) == Words(a) + Words(b)
  {
    if a == [] {
      assert a + b == b;
    } else {
      hide Words;
      var unit, rest := a[0], a[1..];
      assert a == [unit] + rest;
      WordsAppend(rest, b);
      WordsFirst(unit, rest);
      WordsFirst(unit, rest + b);
      Regroup([unit], rest, b);
      Regroup(unit.words, Words(rest), Words(b));
    }
  }

  lemma OthersFirst(unit: Unit, rest: seq<Unit>)
    ensures Others([unit] + rest) == (if unit.Other? then [unit] else []) + Others(rest)
  {
    assert ([unit] + rest)[1..] == rest;
  }

  lemma OverridesFirst(unit: Unit, rest: seq<Unit>)
    ensures Overrides([unit] + rest) == (if unit.Override? then [unit] else []) + Overrides(rest)
  {
    assert ([unit] + rest)[1..] == rest;
  }

  lemma {:induction false} OthersAppend(a: seq<Unit>, b: seq<Unit>)
    ensures Others(a + b) == Others(a) + Others(b)
  {
    if a == [] {
      assert a + b == b;
    } else {
      OthersAppend(a[1..], b);
      OthersFirst(a[0], a[1..] + b);
      OthersFirst(a[0], a[1..]);
      assert a + b == [a[0]] + (a[1..] + b) && a == [a[0]] + a[1..];
    }
  }

  lemma {:induction false} OverridesAppend(a: seq<Unit>, b: seq<Unit>)
    ensures Overrides(a + b) == Overrides(a) + Overrides(b)
  {
    if a == [] {
      assert a + b == b;
    } else {
      OverridesAppend(a[1..], b);
      OverridesFirst(a[0], a[1..] + b);
      OverridesFirst(a[0], a[1..]);
      assert a + b == [a[0]] + (a[1..] + b) && a == [a[0]] + a[1..];
    }
  }

  lemma {:induction false} AllOthers(units: seq<Unit>)
    requires forall u | u in units :: u.Other?
    ensures Others(units) == units && Overrides(units) == []
  {
    if units != [] {
      AllOthers(units[1..]);
    }
  }

  lemma {:induction false} AllOverrides(units: seq<Unit>)
    requires forall u | u in units :: u.Override?
    ensures Others(units) == [] && Overrides(units) == units
  {
    if units != [] {
      AllOverrides(units[1..]);
      assert units[0] in units && units == [units[0]] + units[1..];
    }
  }

  lemma {:induction false} OthersAmong(units: seq<Unit>)
    ensures forall u | u in Others(units) :: u in units && u.Other?
  {
    if units != [] {
      OthersAmong(units[1..]);
    }
  }

  /** The first argument that is no override begins a two-word pair. */
  predicate PairFirst(args: seq<string>, g: Grammar) {
    var units := Units(args, g);
    units.Ok? && Others(units.value) != [] && |Others(units.value)[0].words| == 2
  }

  lemma InsertedAfterFirst<T>(first: seq<T>, added: seq<T>, rest: seq<T>)
    requires |first| == 1
    ensures InsertAtOne(first + rest, added) == first + (added + rest)
  {
  }

  lemma PlacedWords(kept: seq<Unit>, written: seq<Unit>, atEnd: bool)
    requires atEnd || kept == [] || |kept[0].words| == 1
    ensures Words(Placed(kept, written, atEnd)) == Placed(Words(kept), Words(written), atEnd)
  {
    var placed := Placed(kept, written, atEnd);
    if atEnd {
      WordsAppend(kept, written);
    } else if kept != [] {
      var unit, rest := kept[0], kept[1..];
      hide Words;
      assert kept == [unit] + rest;
      InsertedAfterFirst([unit], written, rest);
      WordsFirst(unit, written + rest);
      WordsAppend(written, rest);
      WordsFirst(unit, rest);
      InsertedAfterFirst(unit.words, Words(written), Words(rest));
    }
  }

  lemma ProperSize(u: Unit, g: Grammar)
    requires Proper(u, g)
    ensures 1 <= |u.words| <= 2
  {
  }

  /** A replacement puts whole units beside whole units. */
  lemma ReplacedUnits(args: seq<string>, written: seq<Unit>, g: Grammar, atEnd: bool)
    requires Units(args, g).Ok? && (atEnd || !PairFirst(args, g))
    requires forall u | u in written :: Proper(u, g)
    ensures Units(Replaced(args, written, g, atEnd).value, g)
         == Ok(Placed(Others(Units(args, g).value), written, atEnd))
  {
    var kept := Others(Units(args, g).value);
    WordsOfUnits(args, g);
    OthersAmong(Units(args, g).value);
    if kept != [] {
      ProperSize(kept[0], g);
    }
    PlacedWords(kept, written, atEnd);
    UnitsOfWords(Placed(kept, written, atEnd), g);
  }

  lemma KindsAround(a: seq<Unit>, b: seq<Unit>, c: seq<Unit>)
    requires forall u | u in a + c :: u.Other?
    requires forall u | u in b :: u.Override?
    ensures Others(a + b + c) == a + c && Overrides(a + b + c) == b
  {
    assert forall u | u in a :: u in a + c;
    assert forall u | u in c :: u in a + c;
    AllOthers(a);
    AllOthers(c);
    AllOverrides(b);
    OthersAppend(a, b);
    OthersAppend(a + b, c);
    OverridesAppend(a, b);
    OverridesAppend(a + b, c);
    assert a + [] == a && [] + b == b && b + [] == b;
  }

  lemma PlacedKinds(kept: seq<Unit>, written: seq<Unit>, atEnd: bool)
    requires forall u | u in kept :: u.Other?
    requires forall u | u in written :: u.Override?
    ensures var placed := Placed(kept, written, atEnd);
      Others(placed) == kept && Overrides(placed) == written
  {
    var n := if atEnd then |kept| else if kept == [] then 0 else 1;
    assert kept[..n] + kept[n..] == kept;
    KindsAround(kept[..n], written, kept[n..]);
    assert Placed(kept, written, atEnd) == kept[..n] + written + kept[n..];
  }

  /** One replacement: every argument that is no override stays, in its order, and the
      overrides are exactly the written ones. */
  lemma ReplacementIsExact(args: seq<string>, written: seq<Unit>, g: Grammar, atEnd: bool)
    requires Units(args, g).Ok? && (atEnd || !PairFirst(args, g))
    requires forall u | u in written :: Proper(u, g) && u.Override?
    ensures var units := Units(Replaced(args, written, g, atEnd).value, g);
      && units.Ok?
      && Others(units.value) == Others(Units(args, g).value)
      && Overrides(units.value) == written
  {
    ReplacedUnits(args, written, g, atEnd);
    OthersAmong(Units(args, g).value);
    PlacedKinds(Others(Units(args, g).value), written, atEnd);
  }

  lemma KeptPair(args: seq<string>, g: Grammar)
    requires PairFirst(args, g)
    ensures var kept := Kept(args, g).value; |kept| >= 2 && g.KindOf(kept[0]).Setting?
  {
    var units := Units(args, g).value;
    WordsOfUnits(args, g);
    OthersAmong(units);
    assert Proper(Others(units)[0], g);
  }

  /** What a second reading finds when the first replacement split a leading pair. */
  lemma SplitPairRead(args: seq<string>, head: string, setting: string, more: seq<string>, g: Grammar)
    requires PairFirst(args, g)
    requires g.KindOf(head).Setting? && !g.Permission(head) && g.KindOf(setting).Plain?
    ensures var kept := Kept(args, g).value;
      && |kept| >= 2
      && var again := Kept([kept[0], head, setting] + more + kept[1..], g);
        again.Ok? ==> |again.value| >= 3 && again.value[..3] == [kept[0], head, setting]
  {
    KeptPair(args, g);
    hide Kept, PairFirst;
    var kept := Kept(args, g).value;
    var value := [kept[0], head, setting] + more + kept[1..];
    KeptFirst(value, g);
    assert value[..2] == [kept[0], head];
    var rest := value[2..];
    assert rest[..1] == [setting];
    KeptFirst(rest, g);
  }

  lemma InsertInjective<T>(a: seq<T>, b: seq<T>, added: seq<T>)
    requires a != [] && b != [] && InsertAtOne(a, added) == InsertAtOne(b, added)
    ensures a == b
  {
    var n := 1 + |added|;
    assert InsertAtOne(a, added)[n..] == a[1..] && InsertAtOne(b, added)[n..] == b[1..];
    assert InsertAtOne(a, added)[0] == a[0] && InsertAtOne(b, added)[0] == b[0];
    assert a == [a[0]] + a[1..] && b == [b[0]] + b[1..];
  }
}

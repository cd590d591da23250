/** JSON predicates of predicates.py: strict equality, pointer resolution, evaluation. */
module Predicates {
  import opened Sequences
  import opened Pointers

  /** A finite JSON value as Python holds it: 1 and 1.0 are two values that compare equal, and
      True is a value of its own. */
  datatype Json =
    | Null
    | Boolean(truth: bool)
    | Int(whole: int)
    | Float(fraction: real)
    | Str(text: Text)
    | Arr(items: seq<Json>)
    | Obj(fields: map<Text, Json>)

  // ----- strict equality

  predicate Numeric(v: Json) {
    v.Int? || v.Float?
  }

  function Amount(v: Json): real
    requires Numeric(v)
  {
    if v.Int? then v.whole as real else v.fraction
  }

  /** `_strict_equal` */
  predicate StrictEqual(a: Json, b: Json) {
    if Numeric(a) && Numeric(b) then Amount(a) == Amount(b)
    else if a.Arr? && b.Arr? then
      |a.items| == |b.items| && forall i | 0 <= i < |a.items| :: StrictEqual(a.items[i], b.items[i])
    else if a.Obj? && b.Obj? then
      a.fields.Keys == b.fields.Keys && forall k | k in a.fields :: StrictEqual(a.fields[k], b.fields[k])
    else !Numeric(a) && !a.Arr? && !a.Obj? && a == b
  }

  /** The JSON value meant, numbers by their amount alone. */
  function Meaning(v: Json): Json {
    match v
    case Int(n) => Float(n as real)
    case Arr(items) => Arr(seq(|items|, i requires 0 <= i < |items| => Meaning(items[i])))
    case Obj(fields) => Obj(map k | k in fields :: Meaning(fields[k]))
    case _ => v
  }

  /** Two values are strictly equal exactly when they mean the same JSON. */
  lemma {:induction false} StrictEqualIsSameMeaning(a: Json, b: Json)
    ensures StrictEqual(a, b) <==> Meaning(a) == Meaning(b)
  {
    if a.Arr? && b.Arr? {
      var m, n := Meaning(a).items, Meaning(b).items;
      if |m| == |n| {
        forall i | 0 <= i < |a.items| ensures StrictEqual(a.items[i], b.items[i]) <==> m[i] == n[i] {
          StrictEqualIsSameMeaning(a.items[i], b.items[i]);
        }
        assert m == n <==> forall i | 0 <= i < |m| :: m[i] == n[i];
      }
    } else if a.Obj? && b.Obj? {
      var m, n := Meaning(a).fields, Meaning(b).fields;
      assert m.Keys == a.fields.Keys && n.Keys == b.fields.Keys;
      if m.Keys == n.Keys {
        forall k | k in a.fields ensures StrictEqual(a.fields[k], b.fields[k]) <==> m[k] == n[k] {
          StrictEqualIsSameMeaning(a.fields[k], b.fields[k]);
        }
        assert m == n <==> forall k | k in m :: m[k] == n[k];
      }
    }
  }

  /** Strict equality is an equivalence on nested JSON, and never holds between a boolean and
      a number. */
  lemma StrictEqualIsEquivalence(a: Json, b: Json, c: Json)
    ensures StrictEqual(a, a)
    ensures StrictEqual(a, b) ==> StrictEqual(b, a)
    ensures StrictEqual(a, b) && StrictEqual(b, c) ==> StrictEqual(a, c)
    ensures a.Boolean? && Numeric(b) ==> !StrictEqual(a, b)
  {
    StrictEqualIsSameMeaning(a, a);
    StrictEqualIsSameMeaning(a, b);
    StrictEqualIsSameMeaning(b, a);
    StrictEqualIsSameMeaning(b, c);
    StrictEqualIsSameMeaning(a, c);
  }

  // ----- array indices

  predicate Digit(c: Point) {
    ZERO <= c <= 0x39
  }

  predicate IndexToken(token: Text) {
    && token != []
    && (forall i | 0 <= i < |token| :: Digit(token[i]))
    && (token == [ZERO] || token[0] != ZERO)
  }

  /** `int(token)` */
  function IndexOf(token: Text): nat
    requires forall i | 0 <= i < |token| :: Digit(token[i])
  {
    if token == [] then 0
    else
      assert Digit(token[|token| - 1]);
      10 * IndexOf(Front(token)) + (Last(token) - ZERO)
  }

  function Decimal(n: nat): Text {
    if n < 10 then [n + ZERO] else Decimal(n / 10) + [n % 10 + ZERO]
  }

  /** Every number has its decimal rendering as an accepted index token. */
  lemma {:induction false} DecimalIsIndex(n: nat)
    ensures IndexToken(Decimal(n)) && IndexOf(Decimal(n)) == n
    ensures n > 0 ==> Decimal(n)[0] != ZERO
  {
    if n >= 10 {
      DecimalIsIndex(n / 10);
      assert Front(Decimal(n)) == Decimal(n / 10);
    } else {
      assert Front(Decimal(n)) == [];
    }
  }

  /** And no other accepted token means it. */
  lemma {:induction false} IndexIsDecimal(token: Text)
    requires IndexToken(token)
    ensures Decimal(IndexOf(token)) == token
    ensures token != [ZERO] ==> IndexOf(token) > 0
  {
    var front, last := Front(token), Last(token);
    assert token == front + [last];
    if front == [] {
      assert IndexOf(front) == 0;
    } else {
      assert front[0] == token[0] && front != [ZERO];
      IndexIsDecimal(front);
      assert IndexOf(token) / 10 == IndexOf(front) && IndexOf(token) % 10 == last - ZERO;
    }
  }

  // ----- resolution

  function Child(value: Json, token: Text): Option<Json> {
    match value
    case Obj(fields) => if token in fields then Some(fields[token]) else None
    case Arr(items) => if IndexToken(token) && IndexOf(token) < |items| then Some(items[IndexOf(token)]) else None
    case _ => None
  }

  function Resolved(document: Json, tokens: seq<Text>): Option<Json> {
    if tokens == [] then Some(document)
    else
      var child := Child(document, tokens[0]);
      if child.None? then None else Resolved(child.value, tokens[1..])
  }

  /** `_resolve` */
  method Resolve(document: Json, tokens: seq<Text>) returns (value: Json, found: bool)
    ensures Resolved(document, tokens) == if found then Some(value) else None
  {
    value := document;
    assert tokens[0..] == tokens;
    for n := 0 to |tokens|
      invariant Resolved(document, tokens) == Resolved(value, tokens[n..])
    {
      var token := tokens[n];
      assert tokens[n..][1..] == tokens[n + 1..];
      if value.Obj? {
        if token !in value.fields {
          return Null, false;
        }
        value := value.fields[token];
      } else if value.Arr? {
        if !IndexToken(token) {
          return Null, false;
        }
        var index := IndexOf(token);
        if index >= |value.items| {
          return Null, false;
        }
        value := value.items[index];
      } else {
        return Null, false;
      }
    }
    found := true;
  }

  // ----- locations

  datatype Hop = Field(key: Text) | Item(index: nat)

  /** The node of a document at the end of a path, independently of any token. */
  function At(document: Json, path: seq<Hop>): Option<Json> {
    if path == [] then Some(document)
    else
      match path[0]
      case Field(key) =>
        if document.Obj? && key in document.fields then At(document.fields[key], path[1..]) else None
      case Item(i) =>
        if document.Arr? && i < |document.items| then At(document.items[i], path[1..]) else None
  }

  function HopToken(hop: Hop): Text {
    match hop
    case Field(key) => key
    case Item(i) => Decimal(i)
  }

  function PathTokens(path: seq<Hop>): seq<Text> {
    if path == [] then [] else [HopToken(path[0])] + PathTokens(path[1..])
  }

  /** The path a token list follows in a document. */
  function Where(document: Json, tokens: seq<Text>): Option<seq<Hop>> {
    if tokens == [] then Some([])
    else
      var child := Child(document, tokens[0]);
      if child.None? then None
      else
        var hop := if document.Obj? then Field(tokens[0]) else Item(IndexOf(tokens[0]));
        Prepend([hop], Where(child.value, tokens[1..]))
  }

  lemma AtFirst(document: Json, path: seq<Hop>)
    requires path != []
    ensures At(document, path)
         == var node := At(document, [path[0]]); if node.None? then None else At(node.value, path[1..])
  {
    assert [path[0]][1..] == [];
  }

  lemma WhereFirst(document: Json, tokens: seq<Text>, path: seq<Hop>)
    requires tokens != [] && path != []
    ensures var child := Child(document, tokens[0]);
      Where(document, tokens) == Some(path) <==>
        && child.Some? && path[0] == (if document.Obj? then Field(tokens[0]) else Item(IndexOf(tokens[0])))
        && Where(child.value, tokens[1..]) == Some(path[1..])
  {
    assert path == [path[0]] + path[1..];
  }

  lemma TokensFirst(tokens: seq<Text>, path: seq<Hop>)
    requires tokens != [] && path != []
    ensures PathTokens(path) == tokens <==> HopToken(path[0]) == tokens[0] && PathTokens(path[1..]) == tokens[1..]
  {
    assert tokens == [tokens[0]] + tokens[1..];
    assert PathTokens(path)[1..] == PathTokens(path[1..]);
  }

  lemma {:induction false} Locates(document: Json, tokens: seq<Text>)
    ensures Where(document, tokens).Some? <==> Resolved(document, tokens).Some?
  {
    if tokens != [] && Child(document, tokens[0]).Some? {
      Locates(Child(document, tokens[0]).value, tokens[1..]);
    }
  }

  /** Resolution follows a path exactly when the path exists and its tokens were given. */
  lemma {:induction false} FollowsPath(document: Json, tokens: seq<Text>, path: seq<Hop>)
    ensures Where(document, tokens) == Some(path) <==> At(document, path).Some? && PathTokens(path) == tokens
    ensures Where(document, tokens) == Some(path) ==> Resolved(document, tokens) == At(document, path)
    ensures Where(document, tokens).Some? <==> Resolved(document, tokens).Some?
  {
    Locates(document, tokens);
    if tokens != [] && path != [] {
      hide At, Where, PathTokens, Child;
      AtFirst(document, path);
      WhereFirst(document, tokens, path);
      TokensFirst(tokens, path);
      HopFollowed(document, tokens[0], path[0]);
      var child := Child(document, tokens[0]);
      if child.Some? {
        FollowsPath(child.value, tokens[1..], path[1..]);
      }
    }
  }

  lemma HopFollowed(document: Json, token: Text, hop: Hop)
    ensures (Child(document, token).Some? && hop == (if document.Obj? then Field(token) else Item(IndexOf(token))))
       <==> (At(document, [hop]).Some? && HopToken(hop) == token)
    ensures At(document, [hop]).Some? && HopToken(hop) == token ==> Child(document, token) == At(document, [hop])
  {
    assert [hop][1..] == [];
    if hop.Item? {
      DecimalIsIndex(hop.index);
    }
    if document.Arr? && IndexToken(token) {
      IndexIsDecimal(token);
    }
  }

  /** The main result on resolution: every node of a document is what the encoding of its path
      resolves to, whenever that encoding is within the limits. */
  lemma EveryNodeIsReached(document: Json, path: seq<Hop>)
    requires At(document, path).Some?
    requires var pointer := Encode(PathTokens(path));
      Encodable(pointer) && Bytes(pointer) <= MAX_POINTER_BYTES && |path| <= MAX_POINTER_DEPTH
    ensures var tokens := Tokens(Encode(PathTokens(path)));
      tokens == Ok(PathTokens(path)) && Resolved(document, tokens.value) == At(document, path)
  {
    PathTokensLength(path);
    DecodesExactly(Encode(PathTokens(path)), PathTokens(path));
    FollowsPath(document, PathTokens(path), path);
  }

  lemma {:induction false} PathTokensLength(path: seq<Hop>)
    ensures |PathTokens(path)| == |path|
  {
    if path != [] {
      PathTokensLength(path[1..]);
    }
  }

  /** And two accepted pointers that resolve to one location of a document are the same
      string. */
  lemma PointersAreLocations(document: Json, p: Text, q: Text)
    requires Tokens(p).Ok? && Tokens(q).Ok?
    requires Resolved(document, Tokens(p).value).Some?
    requires Where(document, Tokens(p).value) == Where(document, Tokens(q).value)
    ensures p == q
  {
    var path := Where(document, Tokens(p).value);
    FollowsPath(document, Tokens(p).value, if path.Some? then path.value else []);
    FollowsPath(document, Tokens(q).value, path.value);
    DecodesExactly(p, Tokens(p).value);
    DecodesExactly(q, Tokens(q).value);
  }

  // ----- conditions

  datatype Operator = Eq | Ne | Gt | Gte | Lt | Lte

  datatype Condition = Condition(pointer: Text, operator: Operator, value: Json)

  datatype ConditionError =
    | NotAnObject | WrongKeys | BadPointer(error: PointerError) | BadOperator | BadValue | OrderingNeedsNumber

  function Literal(s: string): Text
    requires forall i | 0 <= i < |s| :: s[i] < '\U{80}'
  {
    seq(|s|, i requires 0 <= i < |s| => s[i] as int)
  }

  function Name(operator: Operator): string {
    match operator
    case Eq => "eq"
    case Ne => "ne"
    case Gt => "gt"
    case Gte => "gte"
    case Lt => "lt"
    case Lte => "lte"
  }

  function Named(s: Text): Option<Operator> {
    if s == Literal(Name(Eq)) then Some(Eq)
    else if s == Literal(Name(Ne)) then Some(Ne)
    else if s == Literal(Name(Gt)) then Some(Gt)
    else if s == Literal(Name(Gte)) then Some(Gte)
    else if s == Literal(Name(Lt)) then Some(Lt)
    else if s == Literal(Name(Lte)) then Some(Lte)
    else None
  }

  predicate Ordering(operator: Operator) {
    operator in {Gt, Gte, Lt, Lte}
  }

  /** `normalize_condition`; `storable` is the size and encoding check of the expected value. */
  function Normalized(condition: Json, storable: Json -> bool): Result<Condition, ConditionError> {
    var pointer, operator, value := Literal("pointer"), Literal("operator"), Literal("value");
    if !condition.Obj? then Err(NotAnObject)
    else if condition.fields.Keys != {pointer, operator, value} then Err(WrongKeys)
    else
      var tokens := if condition.fields[pointer].Str? then Tokens(condition.fields[pointer].text) else Err(NotText);
      if tokens.Err? then Err(BadPointer(tokens.error))
      else
        var named := if condition.fields[operator].Str? then Named(condition.fields[operator].text) else None;
        if named.None? then Err(BadOperator)
        else if !storable(condition.fields[value]) then Err(BadValue)
        else if Ordering(named.value) && !Numeric(condition.fields[value]) then Err(OrderingNeedsNumber)
        else Ok(Condition(condition.fields[pointer].text, named.value, condition.fields[value]))
  }

  predicate Valid(c: Condition) {
    Tokens(c.pointer).Ok? && (Ordering(c.operator) ==> Numeric(c.value))
  }

  datatype Verdict = Matched | NotMatched | MissingPointer | OrderingRequiresNumber

  function Compared(operator: Operator, value: Json, expected: Json): bool
    requires Ordering(operator) ==> Numeric(value) && Numeric(expected)
  {
    match operator
    case Eq => StrictEqual(value, expected)
    case Ne => !StrictEqual(value, expected)
    case Gt => Amount(value) > Amount(expected)
    case Gte => Amount(value) >= Amount(expected)
    case Lt => Amount(value) < Amount(expected)
    case Lte => Amount(value) <= Amount(expected)
  }

  /** `evaluate` on a normalized condition. */
  function Evaluate(document: Json, c: Condition): Verdict
    requires Valid(c)
  {
    var value := Resolved(document, Tokens(c.pointer).value);
    if value.None? then MissingPointer
    else if Ordering(c.operator) && !Numeric(value.value) then OrderingRequiresNumber
    else if Compared(c.operator, value.value, c.value) then Matched
    else NotMatched
  }

  /** The object a condition is written as. */
  function Written(c: Condition): Json {
    Obj(map[Literal("pointer") := Str(c.pointer), Literal("operator") := Str(Literal(Name(c.operator))),
            Literal("value") := c.value])
  }

  lemma LiteralsDiffer(a: string, b: string)
    requires forall i | 0 <= i < |a| :: a[i] < '\U{80}'
    requires forall i | 0 <= i < |b| :: b[i] < '\U{80}'
    ensures Literal(a) == Literal(b) ==> a == b
  {
    if Literal(a) == Literal(b) {
      forall i | 0 <= i < |a| ensures a[i] == b[i] {
        assert Literal(a)[i] == Literal(b)[i];
      }
    }
  }

  lemma NamedExactly(s: Text, operator: Operator)
    ensures Named(s) == Some(operator) <==> s == Literal(Name(operator))
  {
    if s == Literal(Name(operator)) && Named(s).Some? {
      LiteralsDiffer(Name(Named(s).value), Name(operator));
    }
  }

  /** Normalization accepts exactly the written forms of the valid conditions, and gives each
      condition back: what it accepts, `evaluate` can evaluate. */
  lemma NormalizesExactly(j: Json, c: Condition, storable: Json -> bool)
    ensures Normalized(j, storable) == Ok(c) <==> j == Written(c) && Valid(c) && storable(c.value)
  {
    LiteralsDiffer("pointer", "operator");
    LiteralsDiffer("pointer", "value");
    LiteralsDiffer("operator", "value");
    NamedExactly(Literal(Name(c.operator)), c.operator);
    if Normalized(j, storable) == Ok(c) {
      NamedExactly(j.fields[Literal("operator")].text, c.operator);
      assert j.fields == Written(c).fields;
    }
  }

  function Opposite(operator: Operator): Operator {
    match operator
    case Eq => Ne
    case Ne => Eq
    case Gt => Lte
    case Gte => Lt
    case Lt => Gte
    case Lte => Gt
  }

  /** Opposite operators disagree on every document where either is decided, and report the
      same reason where neither is. */
  lemma OppositesCompare(operator: Operator, value: Json, expected: Json)
    requires Ordering(operator) ==> Numeric(value) && Numeric(expected)
    ensures Ordering(Opposite(operator)) == Ordering(operator)
    ensures Compared(Opposite(operator), value, expected) == !Compared(operator, value, expected)
  {
  }

  lemma OppositesDisagree(document: Json, c: Condition)
    requires Valid(c)
    ensures var opposite := Evaluate(document, c.(operator := Opposite(c.operator)));
      match Evaluate(document, c)
      case Matched => opposite == NotMatched
      case NotMatched => opposite == Matched
      case undecided => opposite == undecided
  {
    var value := Resolved(document, Tokens(c.pointer).value);
    if value.Some? && (Ordering(c.operator) ==> Numeric(value.value)) {
      OppositesCompare(c.operator, value.value, c.value);
    }
  }

  /** On numbers the operators order the documents: exactly one of lt, eq and gt matches, and
      what gt matches it matches on every larger number, what lt matches on every smaller one. */
  lemma VerdictsAreOrdered(d: Json, e: Json, c: Condition)
    requires Valid(c) && Numeric(c.value)
    requires var tokens := Tokens(c.pointer).value;
      var x, y := Resolved(d, tokens), Resolved(e, tokens);
      x.Some? && y.Some? && Numeric(x.value) && Numeric(y.value) && Amount(x.value) <= Amount(y.value)
    ensures var lt := Evaluate(d, c.(operator := Lt));
      var eq, gt := Evaluate(d, c.(operator := Eq)), Evaluate(d, c.(operator := Gt));
      && {lt, eq, gt} == {Matched, NotMatched}
      && !(lt == eq == Matched) && !(lt == gt == Matched) && !(eq == gt == Matched)
    ensures Evaluate(d, c.(operator := Gt)) == Matched ==> Evaluate(e, c.(operator := Gt)) == Matched
    ensures Evaluate(e, c.(operator := Lt)) == Matched ==> Evaluate(d, c.(operator := Lt)) == Matched
  {
    var x := Amount(Resolved(d, Tokens(c.pointer).value).value);
    if x < Amount(c.value) {
      assert Evaluate(d, c.(operator := Lt)) == Matched && Evaluate(d, c.(operator := Gt)) == NotMatched;
    } else if x > Amount(c.value) {
      assert Evaluate(d, c.(operator := Gt)) == Matched && Evaluate(d, c.(operator := Lt)) == NotMatched;
    } else {
      assert Evaluate(d, c.(operator := Eq)) == Matched && Evaluate(d, c.(operator := Lt)) == NotMatched;
    }
  }

  lemma {:induction false} ResolvedMeaning(document: Json, tokens: seq<Text>)
    ensures var found, meant := Resolved(document, tokens), Resolved(Meaning(document), tokens);
      meant == if found.Some? then Some(Meaning(found.value)) else None
  {
    if tokens != [] {
      var child := Child(document, tokens[0]);
      assert Child(Meaning(document), tokens[0]) == if child.Some? then Some(Meaning(child.value)) else None;
      if child.Some? {
        ResolvedMeaning(child.value, tokens[1..]);
      }
    }
  }

  lemma ComparedByMeaning(operator: Operator, a: Json, b: Json, x: Json, y: Json)
    requires Meaning(a) == Meaning(b) && Meaning(x) == Meaning(y)
    ensures Numeric(a) <==> Numeric(b)
    ensures Numeric(a) ==> Amount(a) == Amount(b)
    ensures (Ordering(operator) ==> Numeric(a) && Numeric(x)) ==>
      (Ordering(operator) ==> Numeric(b) && Numeric(y)) && Compared(operator, a, x) == Compared(operator, b, y)
  {
    StrictEqualIsSameMeaning(a, x);
    StrictEqualIsSameMeaning(b, y);
  }

  /** The main result on evaluation: a verdict depends only on what the document and the
      expected value mean, not on how their numbers are written. */
  lemma VerdictByMeaning(d: Json, e: Json, c: Condition, expected: Json)
    requires Valid(c) && StrictEqual(d, e) && StrictEqual(c.value, expected)
    ensures Valid(c.(value := expected)) && Evaluate(d, c) == Evaluate(e, c.(value := expected))
  {
    StrictEqualIsSameMeaning(d, e);
    StrictEqualIsSameMeaning(c.value, expected);
    ComparedByMeaning(c.operator, c.value, expected, c.value, expected);
    var tokens := Tokens(c.pointer).value;
    ResolvedMeaning(d, tokens);
    ResolvedMeaning(e, tokens);
    var x, y := Resolved(d, tokens), Resolved(e, tokens);
    if x.Some? {
      ComparedByMeaning(c.operator, x.value, y.value, c.value, expected);
    }
  }
}

/** JSON Pointer as predicates.py decodes it (sections 3 and 4 of RFC 6901). Text is a sequence
    of code points, so that a string UTF-8 cannot encode is a value too. */
module Pointers {
  import opened Sequences

  type Point = c: int | 0 <= c < 0x11_0000
  type Text = seq<Point>

  const SLASH: Point := 0x2F
  const TILDE: Point := 0x7E
  const ZERO: Point := 0x30
  const ONE: Point := 0x31

  const MAX_POINTER_BYTES := 1024
  const MAX_POINTER_DEPTH := 32

  datatype PointerError = NotText | NotUtf8 | TooLong | NotRooted | TooDeep | BadEscape

  predicate Encodable(s: Text) {
    forall i | 0 <= i < |s| :: !(0xD800 <= s[i] < 0xE000)
  }

  /** Bytes of a code point in UTF-8 (section 3 of RFC 3629). */
  function Width(c: Point): nat {
    if c < 0x80 then 1 else if c < 0x800 then 2 else if c < 0x1_0000 then 3 else 4
  }

  function Bytes(s: Text): nat {
    if s == [] then 0 else Bytes(Front(s)) + Width(Last(s))
  }

  /** `str.split("/")` */
  function Split(s: Text): (parts: seq<Text>)
    ensures parts != []
    ensures forall part | part in parts :: SLASH !in part
  {
    if s == [] then [[]]
    else
      var rest := Split(s[1..]);
      if s[0] == SLASH then [[]] + rest else [[s[0]] + rest[0]] + rest[1..]
  }

  /** One part with its escapes undone, or None at the first bad one. */
  function Unescape(part: Text): Option<Text> {
    if part == [] then Some([])
    else if part[0] != TILDE then Prepend([part[0]], Unescape(part[1..]))
    else if |part| < 2 || part[1] !in {ZERO, ONE} then None
    else Prepend([if part[1] == ZERO then TILDE else SLASH], Unescape(part[2..]))
  }

  function Prepend<T>(s: seq<T>, rest: Option<seq<T>>): Option<seq<T>> {
    if rest.Some? then Some(s + rest.value) else None
  }

  lemma PrependTwice<T>(s: seq<T>, t: seq<T>, rest: Option<seq<T>>)
    ensures Prepend(s, Prepend(t, rest)) == Prepend(s + t, rest)
    ensures Prepend([], rest) == rest
  {
    if rest.Some? {
      assert s + (t + rest.value) == (s + t) + rest.value && [] + rest.value == rest.value;
    }
  }

  function UnescapeAll(parts: seq<Text>): Option<seq<Text>> {
    if parts == [] then Some([])
    else
      var token := Unescape(parts[0]);
      if token.None? then None else Prepend([token.value], UnescapeAll(parts[1..]))
  }

  /** What `_pointer_tokens` makes of a string. */
  function Tokens(pointer: Text): Result<seq<Text>, PointerError> {
    if !Encodable(pointer) then Err(NotUtf8)
    else if Bytes(pointer) > MAX_POINTER_BYTES then Err(TooLong)
    else if pointer == [] then Ok([])
    else if pointer[0] != SLASH then Err(NotRooted)
    else
      var parts := Split(pointer[1..]);
      if |parts| > MAX_POINTER_DEPTH then Err(TooDeep)
      else
        var tokens := UnescapeAll(parts);
        if tokens.None? then Err(BadEscape) else Ok(tokens.value)
  }

  /** `_pointer_tokens` */
  method PointerTokens(pointer: Text) returns (result: Result<seq<Text>, PointerError>)
    ensures result == Tokens(pointer)
  {
    if !Encodable(pointer) {
      return Err(NotUtf8);
    }
    if Bytes(pointer) > MAX_POINTER_BYTES {
      return Err(TooLong);
    }
    if pointer == [] {
      return Ok([]);
    }
    if pointer[0] != SLASH {
      return Err(NotRooted);
    }
    var parts := Split(pointer[1..]);
    if |parts| > MAX_POINTER_DEPTH {
      return Err(TooDeep);
    }
    var tokens: seq<Text> := [];
    assert parts[0..] == parts;
    PrependTwice(tokens, tokens, UnescapeAll(parts));
    for n := 0 to |parts|
      invariant UnescapeAll(parts) == Prepend(tokens, UnescapeAll(parts[n..]))
    {
      var part := parts[n];
      var decoded: Text := [];
      var index := 0;
      assert part[0..] == part;
      PrependTwice(decoded, decoded, Unescape(part));
      assert parts[n..][0] == part && parts[n..][1..] == parts[n + 1..];
      while index < |part|
        invariant 0 <= index <= |part|
        invariant Unescape(part) == Prepend(decoded, Unescape(part[index..]))
      {
        var rest := part[index..];
        assert rest[1..] == part[index + 1..];
        if part[index] != TILDE {
          PrependTwice(decoded, [part[index]], Unescape(part[index + 1..]));
          decoded := decoded + [part[index]];
          index := index + 1;
        } else {
          if index + 1 >= |part| || part[index + 1] !in {ZERO, ONE} {
            return Err(BadEscape);
          }
          assert rest[2..] == part[index + 2..];
          var character := if part[index + 1] == ZERO then TILDE else SLASH;
          PrependTwice(decoded, [character], Unescape(part[index + 2..]));
          decoded := decoded + [character];
          index := index + 2;
        }
      }
      assert part[index..] == [] && decoded + [] == decoded;
      PrependTwice(tokens, [decoded], UnescapeAll(parts[n + 1..]));
      tokens := tokens + [decoded];
    }
    assert parts[|parts|..] == [] && tokens + [] == tokens;
    result := Ok(tokens);
  }

  // ----- the encoding

  function Escape(token: Text): Text {
    if token == [] then []
    else
      var first := if token[0] == TILDE then [TILDE, ZERO] else if token[0] == SLASH then [TILDE, ONE] else [token[0]];
      first + Escape(token[1..])
  }

  /** The pointer for a list of reference tokens. */
  function Encode(tokens: seq<Text>): Text {
    if tokens == [] then [] else [SLASH] + Escape(tokens[0]) + Encode(tokens[1..])
  }

  lemma {:induction false} EscapeHasNoSlash(token: Text)
    ensures SLASH !in Escape(token)
  {
    if token != [] {
      EscapeHasNoSlash(token[1..]);
    }
  }

  /** Escaping and unescaping one token are inverse to each other. */
  lemma {:induction false} UnescapeEscape(token: Text)
    ensures Unescape(Escape(token)) == Some(token)
  {
    if token != [] {
      UnescapeEscape(token[1..]);
      var rest := Escape(token[1..]);
      assert token == [token[0]] + token[1..];
      if token[0] in {TILDE, SLASH} {
        assert Escape(token)[2..] == rest;
      } else {
        assert Escape(token)[1..] == rest;
      }
    }
  }

  lemma {:induction false} EscapeUnescape(part: Text)
    requires SLASH !in part && Unescape(part).Some?
    ensures Escape(Unescape(part).value) == part
  {
    if part != [] {
      var n := if part[0] == TILDE then 2 else 1;
      EscapeUnescape(part[n..]);
      var token := Unescape(part).value;
      assert token[1..] == Unescape(part[n..]).value;
      assert part == part[..n] + part[n..];
    }
  }

  /** Splitting takes the first part off. */
  lemma {:induction false} SplitFirst(part: Text, tail: Text)
    requires SLASH !in part && (tail == [] || tail[0] == SLASH)
    ensures Split(part + tail) == [part] + if tail == [] then [] else Split(tail[1..])
  {
    var s := part + tail;
    if part == [] {
      assert s == tail;
    } else {
      SplitFirst(part[1..], tail);
      assert s[1..] == part[1..] + tail && s[0] == part[0];
      assert [part[0]] + part[1..] == part;
    }
  }

  function EscapeAll(tokens: seq<Text>): (parts: seq<Text>)
    ensures |parts| == |tokens|
  {
    if tokens == [] then [] else [Escape(tokens[0])] + EscapeAll(tokens[1..])
  }

  lemma {:induction false} UnescapeEscapeAll(tokens: seq<Text>)
    ensures UnescapeAll(EscapeAll(tokens)) == Some(tokens)
  {
    if tokens != [] {
      UnescapeEscape(tokens[0]);
      UnescapeEscapeAll(tokens[1..]);
      assert EscapeAll(tokens)[1..] == EscapeAll(tokens[1..]);
      assert tokens == [tokens[0]] + tokens[1..];
    }
  }

  /** An encoding splits into the escaped tokens. */
  lemma {:induction false} SplitEncoded(tokens: seq<Text>)
    requires tokens != []
    ensures Encode(tokens)[0] == SLASH
    ensures Split(Encode(tokens)[1..]) == EscapeAll(tokens)
  {
    var first, rest := Escape(tokens[0]), Encode(tokens[1..]);
    hide Escape, Split;
    assert Encode(tokens) == [SLASH] + first + rest;
    assert Encode(tokens)[1..] == first + rest;
    EscapeHasNoSlash(tokens[0]);
    if tokens[1..] != [] {
      SplitEncoded(tokens[1..]);
    }
    SplitFirst(first, rest);
  }

  lemma UnescapeFirst(parts: seq<Text>)
    requires parts != [] && UnescapeAll(parts).Some?
    ensures Unescape(parts[0]).Some? && UnescapeAll(parts[1..]).Some?
    ensures UnescapeAll(parts).value == [Unescape(parts[0]).value] + UnescapeAll(parts[1..]).value
  {
  }

  lemma EncodeFirst(token: Text, rest: seq<Text>)
    ensures Encode([token] + rest) == [SLASH] + Escape(token) + Encode(rest)
  {
    assert ([token] + rest)[1..] == rest;
  }

  lemma Joined(first: Text, rest: Text)
    ensures [SLASH] + first + ([SLASH] + rest) == [SLASH] + (first + [SLASH] + rest)
  {
  }

  lemma NothingMore(first: Text)
    ensures UnescapeAll([]) == Some([]) && Encode([]) == []
    ensures [SLASH] + first + Encode([]) == [SLASH] + first
  {
  }

  /** The parts of a pointer that unescape re-encode to the pointer. */
  lemma {:induction false} EncodeSplit(body: Text)
    requires UnescapeAll(Split(body)).Some?
    ensures |UnescapeAll(Split(body)).value| == |Split(body)|
    ensures Encode(UnescapeAll(Split(body)).value) == [SLASH] + body
    decreases |body|
  {
    var parts := Split(body);
    var first := parts[0];
    UnescapeFirst(parts);
    hide Split, Escape, Unescape, UnescapeAll, Encode;
    EscapeUnescape(first);
    EncodeFirst(Unescape(first).value, UnescapeAll(parts[1..]).value);
    SplitPrefix(body);
    if |parts| > 1 {
      var rest := body[|first| + 1..];
      EncodeSplit(rest);
      Joined(first, rest);
    } else {
      assert parts[1..] == [];
      NothingMore(first);
    }
  }

  lemma SplitStep(body: Text)
    requires body != [] && body[0] != SLASH
    ensures var parts, rest := Split(body), Split(body[1..]);
      parts[0] == [body[0]] + rest[0] && parts[1..] == rest[1..] && |parts| == |rest|
  {
  }

  lemma Peeled(body: Text, n: nat)
    requires n < |body|
    ensures body == [body[0]] + body[1..] && body[1..][n..] == body[n + 1..]
  {
  }

  lemma PutBack(c: Point, part: Text, rest: Text)
    ensures [c] + (part + [SLASH] + rest) == [c] + part + [SLASH] + rest
  {
  }

  /** Where the first part of a split ends. */
  lemma {:induction false} SplitPrefix(body: Text)
    ensures var parts := Split(body);
      if |parts| == 1 then body == parts[0]
      else
        var n := |parts[0]|;
        && n < |body| && body == parts[0] + [SLASH] + body[n + 1..]
        && parts[1..] == Split(body[n + 1..])
  {
    if body != [] && body[0] != SLASH {
      SplitStep(body);
      hide Split;
      SplitPrefix(body[1..]);
      var rest := Split(body[1..]);
      if |rest| > 1 {
        Peeled(body, |rest[0]| + 1);
        PutBack(body[0], rest[0], body[|rest[0]| + 2..]);
      } else {
        Peeled(body, 0);
      }
    }
  }

  /** The main result on pointers: within the size limits a pointer decodes to a token list
      exactly when it is the encoding of that list. Decoding an encoding gives the list back,
      re-encoding an accepted pointer gives the pointer back, and every other string is
      refused. */
  lemma DecodesExactly(pointer: Text, tokens: seq<Text>)
    ensures Tokens(pointer) == Ok(tokens) <==>
        && pointer == Encode(tokens)
        && Encodable(pointer) && Bytes(pointer) <= MAX_POINTER_BYTES && |tokens| <= MAX_POINTER_DEPTH
  {
    if tokens != [] && pointer == Encode(tokens) {
      SplitEncoded(tokens);
      UnescapeEscapeAll(tokens);
    }
    if Tokens(pointer) == Ok(tokens) && pointer != [] {
      EncodeSplit(pointer[1..]);
      assert pointer == [SLASH] + pointer[1..];
    }
  }

  /** Why a string is refused: the first limit it breaks, or an escape no encoding contains. */
  lemma RefusedFor(pointer: Text)
    ensures Tokens(pointer).Err? <==>
        !(Encodable(pointer) && Bytes(pointer) <= MAX_POINTER_BYTES
          && exists tokens: seq<Text> :: |tokens| <= MAX_POINTER_DEPTH && pointer == Encode(tokens))
  {
    if Tokens(pointer).Ok? {
      DecodesExactly(pointer, Tokens(pointer).value);
      assert pointer == Encode(Tokens(pointer).value);
    } else if exists tokens: seq<Text> :: |tokens| <= MAX_POINTER_DEPTH && pointer == Encode(tokens) {
      var tokens: seq<Text> :| |tokens| <= MAX_POINTER_DEPTH && pointer == Encode(tokens);
      DecodesExactly(pointer, tokens);
    }
  }
}

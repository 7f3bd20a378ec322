/**
 RFC 6901 pointers and the keys of scope paths. A scope path is a list of segments;
 its key escapes every segment (sections 3 and 4 of RFC 6901) and joins them with `/`.
 */
module Pointer {
  import opened Wrappers

  datatype PointerError = NoLeadingSlash | InvalidEscape

  /** `str::replace` for one character. */
  function Replace(s: string, c: char, with: string): string {
    if s == "" then "" else (if s[0] == c then with else [s[0]]) + Replace(s[1..], c, with)
  }

  /** One segment as it appears in a key: `~` first, then `/`. */
  function Escape(segment: string): string {
    Replace(Replace(segment, '~', "~0"), '/', "~1")
  }

  function Join(parts: seq<string>): string {
    if |parts| == 0 then ""
    else if |parts| == 1 then parts[0]
    else parts[0] + "/" + Join(parts[1..])
  }

  function EscapeAll(segments: seq<string>): (escaped: seq<string>)
    ensures |escaped| == |segments|
  {
    if segments == [] then [] else [Escape(segments[0])] + EscapeAll(segments[1..])
  }

  /** The storage key of a scope path. */
  function Key(segments: seq<string>): string {
    "/" + Join(EscapeAll(segments))
  }

  /** `str::split('/')`: never empty. */
  function Split(s: string): (parts: seq<string>)
    ensures |parts| >= 1
  {
    if s == "" then [""]
    else if s[0] == '/' then [""] + Split(s[1..])
    else var rest := Split(s[1..]); [[s[0]] + rest[0]] + rest[1..]
  }

  /** The text one escaped token stands for; `None` for a stray `~`. */
  function Decode(token: string): Option<string> {
    if token == "" then Some("")
    else if token[0] != '~' then
      match Decode(token[1..])
      case None => None
      case Some(rest) => Some([token[0]] + rest)
    else if |token| >= 2 && (token[1] == '0' || token[1] == '1') then
      match Decode(token[2..])
      case None => None
      case Some(rest) => Some((if token[1] == '0' then "~" else "/") + rest)
    else None
  }

  function DecodeAll(parts: seq<string>): Option<seq<string>> {
    if parts == [] then Some([])
    else match (Decode(parts[0]), DecodeAll(parts[1..]))
      case (Some(token), Some(rest)) => Some([token] + rest)
      case _ => None
  }

  /** What a pointer denotes: its reference tokens, or why it is refused. */
  function TokensOf(pointer: string): Result<seq<string>, PointerError> {
    if pointer == "" then Ok([])
    else if pointer[0] != '/' then Err(NoLeadingSlash)
    else match DecodeAll(Split(pointer[1..]))
      case None => Err(InvalidEscape)
      case Some(tokens) => Ok(tokens)
  }

  /** `front` followed by a partial result, if there is one. */
  function After<T>(front: seq<T>, back: Option<seq<T>>): (r: Option<seq<T>>)
    ensures front == [] ==> r == back
    ensures back == Some([]) ==> r == Some(front)
  {
    if back.None? then None
    else
      assert front == [] ==> front + back.value == back.value;
      assert back.value == [] ==> front + back.value == front;
      Some(front + back.value)
  }

  // ---------------------------------------------------------------- the decoding loop

  /** The character loop of the engine's token decoder. */
  method DecodeToken(token: string) returns (decoded: Option<string>)
    ensures decoded == Decode(token)
  {
    hide Decode, After;
    var out := "";
    var i := 0;
    assert token[0..] == token;
    while i < |token|
      invariant 0 <= i <= |token|
      invariant Decode(token) == After(out, Decode(token[i..]))
    {
      DecodeAt(token, i, out);
      if token[i] != '~' {
        out := out + [token[i]];
        i := i + 1;
      } else {
        if i + 1 == |token| || (token[i + 1] != '0' && token[i + 1] != '1') {
          return None;
        }
        out := out + if token[i + 1] == '0' then "~" else "/";
        i := i + 2;
      }
    }
    DecodeEnd(token, i);
    decoded := Some(out);
  }

  /** One turn of the loop against the definition. */
  lemma DecodeAt(token: string, i: nat, out: string)
    requires i < |token|
    ensures token[i] != '~' ==> After(out, Decode(token[i..])) == After(out + [token[i]], Decode(token[i + 1..]))
    ensures token[i] == '~' ==>
      if i + 1 == |token| || (token[i + 1] != '0' && token[i + 1] != '1') then After(out, Decode(token[i..])) == None
      else After(out, Decode(token[i..])) == After(out + (if token[i + 1] == '0' then "~" else "/"), Decode(token[i + 2..]))
  {
    assert token[i..][0] == token[i] && token[i..][1..] == token[i + 1..];
    if token[i] != '~' {
      AfterAfter(out, [token[i]], Decode(token[i + 1..]));
    } else if i + 1 < |token| {
      assert token[i..][1] == token[i + 1] && token[i..][2..] == token[i + 2..];
      AfterAfter(out, if token[i + 1] == '0' then "~" else "/", Decode(token[i + 2..]));
    }
  }

  lemma DecodeEnd(token: string, i: nat)
    requires i == |token|
    ensures Decode(token[i..]) == Some("")
  {
  }

  lemma AfterAfter<T>(a: seq<T>, b: seq<T>, c: Option<seq<T>>)
    ensures c.Some? ==> After(a, Some(b + c.value)) == After(a + b, c)
  {
    if c.Some? {
      assert a + (b + c.value) == a + b + c.value;
    }
  }

  method Tokens(pointer: string) returns (r: Result<seq<string>, PointerError>)
    ensures r == TokensOf(pointer)
  {
    if pointer == "" {
      return Ok([]);
    }
    if pointer[0] != '/' {
      return Err(NoLeadingSlash);
    }
    var parts := Split(pointer[1..]);
    var decoded := DecodeParts(parts);
    r := if decoded.Some? then Ok(decoded.value) else Err(InvalidEscape);
  }

  method DecodeParts(parts: seq<string>) returns (r: Option<seq<string>>)
    ensures r == DecodeAll(parts)
  {
    hide Decode, DecodeAll, After;
    var tokens: seq<string> := [];
    var i := 0;
    assert parts[0..] == parts;
    while i < |parts|
      invariant 0 <= i <= |parts|
      invariant DecodeAll(parts) == After(tokens, DecodeAll(parts[i..]))
    {
      DecodePart(parts, i, tokens);
      var decoded := DecodeToken(parts[i]);
      if decoded.None? {
        return None;
      }
      tokens := tokens + [decoded.value];
      i := i + 1;
    }
    DecodedAll(parts, i);
    r := Some(tokens);
  }

  lemma DecodePart(parts: seq<string>, i: nat, tokens: seq<string>)
    requires i < |parts|
    ensures if Decode(parts[i]).None? then After(tokens, DecodeAll(parts[i..])) == None
            else After(tokens, DecodeAll(parts[i..])) == After(tokens + [Decode(parts[i]).value], DecodeAll(parts[i + 1..]))
  {
    hide Decode;
    assert parts[i..][0] == parts[i] && parts[i..][1..] == parts[i + 1..];
    if Decode(parts[i]).Some? {
      AfterAfter(tokens, [Decode(parts[i]).value], DecodeAll(parts[i + 1..]));
    }
  }

  lemma DecodedAll(parts: seq<string>, i: nat)
    requires i == |parts|
    ensures DecodeAll(parts[i..]) == Some([])
  {
  }

  // ---------------------------------------------------------------- round trips

  lemma {:induction false} ReplaceCons(c: char, s: string)
    ensures Escape([c] + s) == (if c == '~' then "~0" else if c == '/' then "~1" else [c]) + Escape(s)
  {
    assert ([c] + s)[1..] == s;
    var inner := Replace(s, '~', "~0");
    if c == '~' {
      assert Replace([c] + s, '~', "~0") == "~0" + inner;
      var t := "~0" + inner;
      assert t[0] == '~' && t[1..] == "0" + inner && ("0" + inner)[1..] == inner;
      calc {
        Escape([c] + s);
        ['~'] + Replace("0" + inner, '/', "~1");
        ['~'] + (['0'] + Replace(inner, '/', "~1"));
        "~0" + Escape(s);
      }
    } else {
      assert Replace([c] + s, '~', "~0") == [c] + inner;
      assert ([c] + inner)[1..] == inner;
    }
  }

  lemma {:induction false} DecodeInvertsEscape(s: string)
    ensures Decode(Escape(s)) == Some(s)
  {
    if s != "" {
      ReplaceCons(s[0], s[1..]);
      assert [s[0]] + s[1..] == s;
      DecodeInvertsEscape(s[1..]);
      var rest := Escape(s[1..]);
      if s[0] == '~' {
        assert ("~0" + rest)[2..] == rest;
      } else if s[0] == '/' {
        assert ("~1" + rest)[2..] == rest;
      } else {
        assert ([s[0]] + rest)[1..] == rest;
      }
    }
  }

  lemma {:induction false} EscapeHasNoSlash(s: string)
    ensures '/' !in Escape(s)
  {
    if s != "" {
      ReplaceCons(s[0], s[1..]);
      assert [s[0]] + s[1..] == s;
      EscapeHasNoSlash(s[1..]);
    }
  }

  lemma {:induction false} SplitAtSlash(a: string, rest: string)
    requires '/' !in a
    ensures Split(a) == [a]
    ensures Split(a + "/" + rest) == [a] + Split(rest)
  {
    if a == "" {
      assert a + "/" + rest == "/" + rest && ("/" + rest)[1..] == rest;
    } else {
      SplitAtSlash(a[1..], rest);
      assert a == [a[0]] + a[1..];
      assert (a + "/" + rest)[1..] == a[1..] + "/" + rest;
    }
  }

  lemma {:induction false} SplitInvertsJoin(parts: seq<string>)
    requires parts != []
    requires forall i :: 0 <= i < |parts| ==> '/' !in parts[i]
    ensures Split(Join(parts)) == parts
  {
    if |parts| == 1 {
      SplitAtSlash(parts[0], "");
    } else {
      SplitInvertsJoin(parts[1..]);
      SplitAtSlash(parts[0], Join(parts[1..]));
    }
  }

  lemma {:induction false} EscapedParts(segments: seq<string>)
    ensures forall i :: 0 <= i < |segments| ==> '/' !in EscapeAll(segments)[i]
    ensures DecodeAll(EscapeAll(segments)) == Some(segments)
  {
    if segments != [] {
      EscapedParts(segments[1..]);
      EscapeHasNoSlash(segments[0]);
      DecodeInvertsEscape(segments[0]);
      var e := EscapeAll(segments);
      assert e[1..] == EscapeAll(segments[1..]);
      assert segments == [segments[0]] + segments[1..];
    }
  }

  /** Decoding the key of a nonempty path gives the path back. */
  lemma TokensInvertKey(segments: seq<string>)
    requires segments != []
    ensures TokensOf(Key(segments)) == Ok(segments)
  {
    EscapedParts(segments);
    SplitInvertsJoin(EscapeAll(segments));
    assert Key(segments)[1..] == Join(EscapeAll(segments));
  }

  /** Distinct nonempty paths never share a storage key. */
  lemma KeyInjective(p: seq<string>, q: seq<string>)
    requires p != [] && q != [] && Key(p) == Key(q)
    ensures p == q
  {
    TokensInvertKey(p);
    TokensInvertKey(q);
  }

  lemma {:induction false} JoinSplit(s: string)
    ensures Join(Split(s)) == s
  {
    if s != "" {
      JoinSplit(s[1..]);
      var rest := Split(s[1..]);
      hide Join;
      if s[0] == '/' {
        JoinEmpty(rest);
        assert Split(s) == [""] + rest;
        assert s == "/" + s[1..];
      } else {
        JoinGrown(s[0], rest);
        assert Split(s) == [[s[0]] + rest[0]] + rest[1..];
        assert s == [s[0]] + s[1..];
      }
    }
  }

  lemma JoinEmpty(rest: seq<string>)
    requires rest != []
    ensures Join([""] + rest) == "/" + Join(rest)
  {
    assert ([""] + rest)[1..] == rest;
  }

  lemma JoinGrown(c: char, rest: seq<string>)
    requires rest != []
    ensures Join([[c] + rest[0]] + rest[1..]) == [c] + Join(rest)
  {
    var grown := [[c] + rest[0]] + rest[1..];
    if |rest| > 1 {
      assert grown[1..] == rest[1..];
      assert ([c] + rest[0]) + "/" + Join(rest[1..]) == [c] + (rest[0] + "/" + Join(rest[1..]));
    }
  }

  lemma {:induction false} EscapeInvertsDecode(token: string)
    requires '/' !in token && Decode(token).Some?
    ensures Escape(Decode(token).value) == token
  {
    if token != "" {
      if token[0] != '~' {
        EscapeInvertsDecode(token[1..]);
        ReplaceCons(token[0], Decode(token[1..]).value);
      } else {
        EscapeInvertsDecode(token[2..]);
        ReplaceCons(if token[1] == '0' then '~' else '/', Decode(token[2..]).value);
        assert token == [token[0], token[1]] + token[2..];
      }
    }
  }

  lemma {:induction false} SplitPartsHaveNoSlash(s: string)
    ensures forall i :: 0 <= i < |Split(s)| ==> '/' !in Split(s)[i]
  {
    if s != "" {
      SplitPartsHaveNoSlash(s[1..]);
    }
  }

  lemma {:induction false} EscapeInvertsDecodeAll(parts: seq<string>)
    requires forall i :: 0 <= i < |parts| ==> '/' !in parts[i]
    requires DecodeAll(parts).Some?
    ensures EscapeAll(DecodeAll(parts).value) == parts
  {
    if parts != [] {
      EscapeInvertsDecodeAll(parts[1..]);
      EscapeInvertsDecode(parts[0]);
      var all := DecodeAll(parts).value;
      assert all[1..] == DecodeAll(parts[1..]).value;
    }
  }

  /** The escaping is canonical: a nonempty pointer is exactly the key of its tokens. */
  lemma KeyInvertsTokens(pointer: string)
    requires pointer != "" && TokensOf(pointer).Ok?
    ensures Key(TokensOf(pointer).value) == pointer
  {
    var rest := pointer[1..];
    SplitPartsHaveNoSlash(rest);
    EscapeInvertsDecodeAll(Split(rest));
    JoinSplit(rest);
    assert pointer == "/" + rest;
  }

  // ---------------------------------------------------------------- prefixes

  lemma {:induction false} JoinConcat(a: seq<string>, b: seq<string>)
    requires a != [] && b != []
    ensures Join(a + b) == Join(a) + "/" + Join(b)
  {
    if |a| == 1 {
      assert (a + b)[1..] == b;
    } else {
      assert (a + b)[1..] == a[1..] + b;
      JoinConcat(a[1..], b);
      assert (a + b)[0] == a[0];
    }
  }

  lemma {:induction false} EscapeAllConcat(a: seq<string>, b: seq<string>)
    ensures EscapeAll(a + b) == EscapeAll(a) + EscapeAll(b)
  {
    if a == [] {
      assert a + b == b;
    } else {
      assert (a + b)[1..] == a[1..] + b;
      EscapeAllConcat(a[1..], b);
    }
  }

  lemma SplitStep(c: char, s: string)
    ensures Split([c] + s) == if c == '/' then [""] + Split(s) else [[c] + Split(s)[0]] + Split(s)[1..]
  {
    assert ([c] + s)[1..] == s;
  }

  lemma {:induction false} SplitAppend(a: string, b: string)
    ensures Split(a + "/" + b) == Split(a) + Split(b)
    decreases |a|
  {
    if a == "" {
      assert a + "/" + b == ['/'] + b;
      SplitStep('/', b);
    } else {
      var rest := a[1..];
      SplitAppend(rest, b);
      assert a + "/" + b == [a[0]] + (rest + "/" + b) && a == [a[0]] + rest;
      SplitSteps(a[0], rest + "/" + b, rest, Split(b));
    }
  }

  lemma SplitSteps(c: char, whole: string, part: string, tail: seq<string>)
    requires Split(whole) == Split(part) + tail
    ensures Split([c] + whole) == Split([c] + part) + tail
  {
    SplitStep(c, whole);
    SplitStep(c, part);
    hide Split;
    PrependKeeps(c, Split(whole), Split(part), tail);
  }

  lemma PrependKeeps(c: char, w: seq<string>, p: seq<string>, tail: seq<string>)
    requires w == p + tail && p != []
    ensures [""] + w == [""] + p + tail
    ensures [[c] + w[0]] + w[1..] == [[c] + p[0]] + p[1..] + tail
  {
    assert w[0] == p[0] && w[1..] == p[1..] + tail;
  }

  /**
   The descendant test used by every store and by group stops: a key starts with
   another key followed by `/` exactly when its path properly extends the other path.
   */
  lemma DescendantKeys(p: seq<string>, q: seq<string>)
    requires p != []
    ensures Key(p) + "/" <= Key(q) <==> p < q
  {
    hide Key;
    if p < q {
      ExtendedKey(p, q);
    }
    if Key(p) + "/" <= Key(q) {
      KeyExtends(p, q);
    }
  }

  lemma ExtendedKey(p: seq<string>, q: seq<string>)
    requires p != [] && p < q
    ensures Key(p) + "/" <= Key(q)
  {
    hide EscapeAll, Join;
    var rest := q[|p|..];
    assert q == p + rest;
    EscapeAllConcat(p, rest);
    JoinConcat(EscapeAll(p), EscapeAll(rest));
    assert Key(q) == (Key(p) + "/") + Join(EscapeAll(rest));
  }

  lemma KeyExtends(p: seq<string>, q: seq<string>)
    requires p != [] && Key(p) + "/" <= Key(q)
    ensures p < q
  {
    var tail := Key(q)[|Key(p)| + 1..];
    var ep, eq := EscapeAll(p), EscapeAll(q);
    assert q != [];
    hide EscapeAll, Join, Split, DecodeAll;
    assert Key(q) == Key(p) + "/" + tail;
    assert Join(eq) == Join(ep) + "/" + tail by {
      assert Key(q)[1..] == Join(eq);
      assert (Key(p) + "/" + tail)[1..] == Join(ep) + "/" + tail;
    }
    SplitAppend(Join(ep), tail);
    EscapedParts(p);
    EscapedParts(q);
    SplitInvertsJoin(ep);
    SplitInvertsJoin(eq);
    assert eq == ep + Split(tail);
    DecodeAllConcat(ep, Split(tail));
  }

  lemma {:induction false} DecodeAllConcat(a: seq<string>, b: seq<string>)
    requires DecodeAll(a).Some?
    ensures DecodeAll(a + b) == After(DecodeAll(a).value, DecodeAll(b))
    ensures DecodeAll(b).Some? ==> |DecodeAll(b).value| == |b|
  {
    if a == [] {
      assert a + b == b;
      DecodeAllLength(b);
    } else {
      assert (a + b)[1..] == a[1..] + b && (a + b)[0] == a[0];
      DecodeAllConcat(a[1..], b);
      var first, rest := Decode(a[0]).value, DecodeAll(a[1..]).value;
      assert DecodeAll(b).Some? ==> [first] + (rest + DecodeAll(b).value) == [first] + rest + DecodeAll(b).value;
    }
  }

  lemma {:induction false} DecodeAllLength(parts: seq<string>)
    ensures DecodeAll(parts).Some? ==> |DecodeAll(parts).value| == |parts|
  {
    if parts != [] {
      DecodeAllLength(parts[1..]);
    }
  }
}

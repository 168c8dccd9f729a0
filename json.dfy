/**
 * The envelopes exchanged between the session and the simulated peer are
 * JSON objects whose properties all hold strings. This module gives them a
 * value type (`Object`, properties in insertion order), JavaScript property
 * assignment (`Put`), the `JSON.stringify` encoding (`Encode`) and the
 * matching part of `JSON.parse` (`Decode`), and proves that decoding an
 * encoded object gives the object back.
 */
module Json {
  import opened Wrappers

  /** A flat JSON object: its properties, in insertion order. */
  type Object = seq<(string, string)>

  /** No property name occurs twice, as in every JavaScript object. */
  predicate DistinctKeys(o: Object)
  {
    forall i, j :: 0 <= i < j < |o| ==> o[i].0 != o[j].0
  }

  /** `o[k]`: the value of property `k`, or `None` for `undefined`. */
  function Get(o: Object, k: string): (r: Option<string>)
    ensures r.None? <==> forall i :: 0 <= i < |o| ==> o[i].0 != k
  {
    if o == [] then None else if o[0].0 == k then Some(o[0].1) else Get(o[1..], k)
  }

  /**
   * `o[k] = v` (and the spread `{...o, k: v}`): an existing property keeps
   * its place and takes the new value, a new property goes at the end.
   */
  function Put(o: Object, k: string, v: string): (r: Object)
    ensures Get(r, k) == Some(v)
    ensures forall k' :: k' != k ==> Get(r, k') == Get(o, k')
    ensures Get(o, k).None? ==> r == o + [(k, v)]
    ensures Get(o, k).Some? ==> |r| == |o| && forall i :: 0 <= i < |o| ==> r[i].0 == o[i].0
  {
    if o == [] then [(k, v)]
    else if o[0].0 == k then [(k, v)] + o[1..]
    else [o[0]] + Put(o[1..], k, v)
  }

  /** Lower-case hexadecimal digit, as `JSON.stringify` writes it. */
  function HexDigit(n: nat): char
    requires n < 16
  {
    if n < 10 then ('0' as int + n) as char else ('a' as int + n - 10) as char
  }

  /** The value of a hexadecimal digit of either case. */
  function HexValue(c: char): (r: Option<nat>)
    ensures r.Some? ==> r.value < 16
  {
    if '0' <= c <= '9' then Some(c as int - '0' as int)
    else if 'a' <= c <= 'f' then Some(c as int - 'a' as int + 10)
    else if 'A' <= c <= 'F' then Some(c as int - 'A' as int + 10)
    else None
  }

  /** One character inside a JSON string literal, escaped as `JSON.stringify` does. */
  function EscapeChar(c: char): string
  {
    if c == '"' then "\\\""
    else if c == '\\' then "\\\\"
    else if c == '\U{8}' then "\\b"
    else if c == '\U{C}' then "\\f"
    else if c == '\n' then "\\n"
    else if c == '\r' then "\\r"
    else if c == '\t' then "\\t"
    else if c < ' ' then "\\u00" + [HexDigit(c as int / 16), HexDigit(c as int % 16)]
    else [c]
  }

  /** The body of the string literal for `s`. */
  function Escape(s: string): string
  {
    if s == [] then [] else EscapeChar(s[0]) + Escape(s[1..])
  }

  /** The string literal for `s`, followed by `rest`. */
  function Quoted(s: string, rest: string): string
  {
    "\"" + (Escape(s) + ("\"" + rest))
  }

  /**
   * `"k":"v"` for every property, separated by commas, followed by `rest`
   * (written from the right so that each piece is a prefix of what follows it).
   */
  function MembersThen(o: Object, rest: string): string
    requires o != []
  {
    var after := if |o| == 1 then rest else "," + MembersThen(o[1..], rest);
    Quoted(o[0].0, ":" + Quoted(o[0].1, after))
  }

  /** `t` ends `s`. */
  predicate EndsWith(s: string, t: string)
  {
    |t| <= |s| && s[|s| - |t|..] == t
  }

  /** A suffix of a suffix is a suffix. */
  lemma EndsWithTrans(a: string, b: string, c: string)
    requires EndsWith(a, b) && EndsWith(b, c)
    ensures EndsWith(a, c)
  {
    assert a[|a| - |c|..] == b[|b| - |c|..];
  }

  /** A string literal is written before `rest`. */
  lemma QuotedEnds(s: string, rest: string)
    ensures EndsWith(Quoted(s, rest), rest) && |Quoted(s, rest)| > |rest|
  {
    var q := Quoted(s, rest);
    assert q == ("\"" + Escape(s) + "\"") + rest;
  }

  /** The members are written before `rest`, which ends what they make. */
  lemma {:induction false} MembersThenEnds(o: Object, rest: string)
    requires o != []
    ensures EndsWith(MembersThen(o, rest), rest) && |MembersThen(o, rest)| > |rest|
  {
    var after := if |o| == 1 then rest else "," + MembersThen(o[1..], rest);
    var value := Quoted(o[0].1, after);
    QuotedEnds(o[0].1, after);
    QuotedEnds(o[0].0, ":" + value);
    assert EndsWith(":" + value, value);
    EndsWithTrans(MembersThen(o, rest), ":" + value, value);
    EndsWithTrans(MembersThen(o, rest), value, after);
    if |o| > 1 {
      MembersThenEnds(o[1..], rest);
      assert EndsWith(after, MembersThen(o[1..], rest));
      EndsWithTrans(after, MembersThen(o[1..], rest), rest);
      EndsWithTrans(MembersThen(o, rest), after, rest);
    }
  }

  /**
   * `JSON.stringify(o)`: braces around the members, so at least two
   * characters, and exactly two (`{}`) for the object without properties.
   */
  function Encode(o: Object): (r: string)
    ensures |r| >= 2 && (|r| == 2 <==> o == [])
  {
    if o == [] then "{}"
    else
      MembersThenEnds(o, "}");
      "{" + MembersThen(o, "}")
  }

  /** What `JSON.stringify` writes for an object opens with `{` and closes with `}`. */
  lemma EncodeBraces(o: Object)
    ensures Encode(o)[0] == '{' && Encode(o)[|Encode(o)| - 1] == '}'
  {
    if o != [] {
      MembersThenEnds(o, "}");
    }
  }

  /**
   * Reads one escape sequence; `s` is what follows the backslash. Yields the
   * character and the number of characters of `s` consumed.
   */
  function Unescape(s: string): (r: Option<(char, nat)>)
    ensures r.Some? ==> 1 <= r.value.1 <= |s|
  {
    if s == [] then None
    else if s[0] == '"' then Some(('"', 1))
    else if s[0] == '\\' then Some(('\\', 1))
    else if s[0] == '/' then Some(('/', 1))
    else if s[0] == 'b' then Some(('\U{8}', 1))
    else if s[0] == 'f' then Some(('\U{C}', 1))
    else if s[0] == 'n' then Some(('\n', 1))
    else if s[0] == 'r' then Some(('\r', 1))
    else if s[0] == 't' then Some(('\t', 1))
    else if s[0] == 'u' && |s| >= 5 then
      match (HexValue(s[1]), HexValue(s[2]), HexValue(s[3]), HexValue(s[4]))
      case (Some(a), Some(b), Some(c), Some(d)) =>
        var code := a * 4096 + b * 256 + c * 16 + d;
        // a lone UTF-16 surrogate is not a character here
        if 0xD800 <= code < 0xE000 then None else Some((code as char, 5))
      case _ => None
    else None
  }

  /**
   * Reads the rest of a string literal; `s` is what follows the opening
   * quote. Yields the decoded text and what follows the closing quote.
   */
  function ParseChars(s: string): (r: Option<(string, string)>)
    ensures r.Some? ==> |r.value.1| < |s|
    decreases |s|
  {
    if s == [] then None
    else if s[0] == '"' then Some(([], s[1..]))
    else if s[0] == '\\' then
      match Unescape(s[1..])
      case None => None
      case Some((c, n)) =>
        match ParseChars(s[1 + n..])
        case None => None
        case Some((t, rest)) => Some(([c] + t, rest))
    else if s[0] < ' ' then None
    else
      match ParseChars(s[1..])
      case None => None
      case Some((t, rest)) => Some(([s[0]] + t, rest))
  }

  /** The whitespace JSON allows between tokens: space, tab, line feed and carriage return. */
  predicate IsJsonSpace(c: char)
  {
    c == ' ' || c == '\t' || c == '\n' || c == '\r'
  }

  /** `s` with its leading JSON whitespace skipped. */
  function SkipSpace(s: string): (r: string)
    ensures |r| <= |s|
  {
    if s != [] && IsJsonSpace(s[0]) then SkipSpace(s[1..]) else s
  }

  /** `SkipSpace` removes a prefix made of whitespace only, and what it leaves does not start with whitespace. */
  lemma {:induction false} SkipSpaceShape(s: string)
    ensures var r := SkipSpace(s);
            && r == s[|s| - |r|..]
            && (forall i :: 0 <= i < |s| - |r| ==> IsJsonSpace(s[i]))
            && (r == [] || !IsJsonSpace(r[0]))
  {
    if s != [] && IsJsonSpace(s[0]) {
      SkipSpaceShape(s[1..]);
    }
  }

  /** After the closing brace only whitespace may follow. */
  function CloseObject(rest: string, acc: Object): Option<Object>
  {
    if SkipSpace(rest) == [] then Some(acc) else None
  }

  /**
   * Reads `"k" : "v"` members up to the closing brace, assigning each one
   * into `acc` in turn (so a repeated name keeps its first place and its last
   * value); `s` starts at a member's opening quote, whitespace already skipped.
   */
  function DecodeMembers(s: string, acc: Object): Option<Object>
    decreases |s|
  {
    if s == [] || s[0] != '"' then None
    else
      match ParseChars(s[1..])
      case None => None
      case Some((k, r0)) =>
        var r1 := SkipSpace(r0);
        if r1 == [] || r1[0] != ':' then None
        else
          var r2 := SkipSpace(r1[1..]);
          if r2 == [] || r2[0] != '"' then None
          else
            match ParseChars(r2[1..])
            case None => None
            case Some((v, r3)) =>
              var r4 := SkipSpace(r3);
              if r4 == [] then None
              else if r4[0] == '}' then CloseObject(r4[1..], Put(acc, k, v))
              else if r4[0] == ',' then DecodeMembers(SkipSpace(r4[1..]), Put(acc, k, v))
              else None
  }

  /** What follows the opening brace of an object: `}` at once, or its members. */
  function DecodeBody(s: string): Option<Object>
  {
    var t := SkipSpace(s);
    if t != [] && t[0] == '}' then CloseObject(t[1..], []) else DecodeMembers(t, [])
  }

  /** Assignment never gives an object a second property of the same name. */
  lemma PutKeepsDistinct(o: Object, k: string, v: string)
    requires DistinctKeys(o)
    ensures DistinctKeys(Put(o, k, v))
  {
    var r := Put(o, k, v);
    if Get(o, k).None? {
      forall i, j | 0 <= i < j < |r|
        ensures r[i].0 != r[j].0
      {
        if j == |o| {
          assert r[j].0 == k && r[i] == o[i];
        }
      }
    }
  }

  /** Members read into an object with distinct names leave the names distinct. */
  lemma {:induction false} DecodeMembersDistinct(s: string, acc: Object)
    requires DistinctKeys(acc)
    ensures DecodeMembers(s, acc).Some? ==> DistinctKeys(DecodeMembers(s, acc).value)
    decreases |s|
  {
    if s != [] && s[0] == '"' && ParseChars(s[1..]).Some? {
      var (k, r0) := ParseChars(s[1..]).value;
      var r1 := SkipSpace(r0);
      if r1 != [] && r1[0] == ':' {
        var r2 := SkipSpace(r1[1..]);
        if r2 != [] && r2[0] == '"' && ParseChars(r2[1..]).Some? {
          var (v, r3) := ParseChars(r2[1..]).value;
          var r4 := SkipSpace(r3);
          PutKeepsDistinct(acc, k, v);
          if r4 != [] && r4[0] == '}' {
            assert DecodeMembers(s, acc) == CloseObject(r4[1..], Put(acc, k, v));
          } else if r4 != [] && r4[0] == ',' {
            assert DecodeMembers(s, acc) == DecodeMembers(SkipSpace(r4[1..]), Put(acc, k, v));
            DecodeMembersDistinct(SkipSpace(r4[1..]), Put(acc, k, v));
          }
        }
      }
    }
  }

  /**
   * `JSON.parse(s)` when `s` is an object whose properties all hold strings,
   * with whitespace allowed around every token; `None` stands for a parse
   * error and for every other kind of JSON value. A parsed object never has
   * two properties of the same name: a repeated name keeps its first place
   * and takes its last value.
   */
  function Decode(s: string): (r: Option<Object>)
    ensures r.Some? ==> DistinctKeys(r.value)
  {
    var t := SkipSpace(s);
    if t != [] && t[0] == '{' then
      DecodeMembersDistinct(SkipSpace(t[1..]), []);
      DecodeBody(t[1..])
    else None
  }

  /** Only text whose first character other than whitespace is an opening brace decodes. */
  lemma {:induction false} DecodedStartsWithBrace(s: string)
    ensures Decode(s).Some? ==> SkipSpace(s) != [] && SkipSpace(s)[0] == '{'
  {
  }

  lemma {:induction false} HexRoundTrip(n: nat)
    requires n < 16
    ensures HexValue(HexDigit(n)) == Some(n)
  {
  }

  /** An escaped character reads back as itself. */
  lemma {:induction false} UnescapeChar(c: char, rest: string)
    requires EscapeChar(c) != [c]
    ensures EscapeChar(c)[0] == '\\'
    ensures Unescape(EscapeChar(c)[1..] + rest) == Some((c, |EscapeChar(c)| - 1))
  {
    var e := EscapeChar(c);
    if c < ' ' && c != '\U{8}' && c != '\U{C}' && c != '\n' && c != '\r' && c != '\t' {
      var hi, lo := c as int / 16, c as int % 16;
      HexRoundTrip(hi);
      HexRoundTrip(lo);
      var s := e[1..] + rest;
      assert s[..5] == ['u', '0', '0', HexDigit(hi), HexDigit(lo)];
    }
  }

  /** Reading one escaped character in front of `tail` puts that character in front of what `tail` reads as. */
  lemma {:induction false} ParseStep(c: char, tail: string)
    ensures ParseChars(EscapeChar(c) + tail) ==
              match ParseChars(tail)
              case None => None
              case Some((t, rest)) => Some(([c] + t, rest))
  {
    var e := EscapeChar(c);
    if e == [c] {
      assert c != '"' && c != '\\' && !(c < ' ');
      assert (e + tail)[0] == c && (e + tail)[1..] == tail;
    } else {
      UnescapeChar(c, tail);
      assert (e + tail)[1..] == e[1..] + tail;
      assert (e + tail)[1 + (|e| - 1)..] == tail;
    }
  }

  /** The body of a string literal, closed by a quote, reads back as the string. */
  lemma {:induction false} ParseEscaped(t: string, rest: string)
    ensures ParseChars(Escape(t) + ("\"" + rest)) == Some((t, rest))
  {
    if t == [] {
      assert Escape(t) + ("\"" + rest) == "\"" + rest;
    } else {
      var tail := Escape(t[1..]) + ("\"" + rest);
      assert Escape(t) + ("\"" + rest) == EscapeChar(t[0]) + tail;
      ParseEscaped(t[1..], rest);
      ParseStep(t[0], tail);
      assert [t[0]] + t[1..] == t;
    }
  }

  /** Every character of `w` is JSON whitespace. */
  predicate AllSpace(w: string)
  {
    forall i :: 0 <= i < |w| ==> IsJsonSpace(w[i])
  }

  /** Whitespace in front of `x` is skipped as if it were not there. */
  lemma {:induction false} SkipLeading(w: string, x: string)
    requires AllSpace(w)
    ensures SkipSpace(w + x) == SkipSpace(x)
  {
    if w == [] {
      assert w + x == x;
    } else {
      assert (w + x)[0] == w[0] && (w + x)[1..] == w[1..] + x;
      SkipLeading(w[1..], x);
    }
  }

  /** A spaced member `"k" : "v" }`, read from its opening quote. */
  lemma {:induction false} DecodeSpacedBody(k: string, v: string, w2: string, w3: string, w4: string, w5: string)
    requires AllSpace(w2) && AllSpace(w3) && AllSpace(w4) && AllSpace(w5)
    ensures DecodeMembers(Quoted(k, w2 + (":" + (w3 + Quoted(v, w4 + ("}" + w5))))), []) == Some([(k, v)])
  {
    var close := "}" + w5;
    var tv := w4 + close;
    var qv := Quoted(v, tv);
    var colon := ":" + (w3 + qv);
    var tk := w2 + colon;
    var qk := Quoted(k, tk);
    assert qk[0] == '"' && qk[1..] == Escape(k) + ("\"" + tk);
    ParseEscaped(k, tk);
    SkipLeading(w2, colon);
    SkipSpaceIdle(colon);
    assert colon[1..] == w3 + qv;
    SkipLeading(w3, qv);
    SkipSpaceIdle(qv);
    assert qv[0] == '"' && qv[1..] == Escape(v) + ("\"" + tv);
    ParseEscaped(v, tv);
    SkipLeading(w4, close);
    SkipSpaceIdle(close);
    assert close[1..] == w5;
    SkipLeading(w5, []);
    assert w5 + [] == w5;
  }

  /**
   * Whitespace is allowed around every token: a one-member object reads back
   * the same whatever whitespace `w0` … `w5` stands before the brace, around
   * the name, the colon and the value, and after the closing brace.
   */
  lemma {:induction false} DecodeSpacedMember(k: string, v: string, w0: string, w1: string, w2: string, w3: string, w4: string, w5: string)
    requires AllSpace(w0) && AllSpace(w1) && AllSpace(w2) && AllSpace(w3) && AllSpace(w4) && AllSpace(w5)
    ensures Decode(w0 + ("{" + (w1 + Quoted(k, w2 + (":" + (w3 + Quoted(v, w4 + ("}" + w5)))))))) == Some([(k, v)])
  {
    var qk := Quoted(k, w2 + (":" + (w3 + Quoted(v, w4 + ("}" + w5)))));
    var body := w1 + qk;
    var obj := "{" + body;
    SkipLeading(w0, obj);
    SkipSpaceIdle(obj);
    assert obj[1..] == body;
    SkipLeading(w1, qk);
    assert qk[0] == '"';
    SkipSpaceIdle(qk);
    DecodeSpacedBody(k, v, w2, w3, w4, w5);
  }

  /** The names of `o` are distinct and none of them is a name of `acc`. */
  predicate FreshKeys(acc: Object, o: Object)
  {
    DistinctKeys(o) && forall i, j :: 0 <= i < |acc| && 0 <= j < |o| ==> acc[i].0 != o[j].0
  }

  /** Text that does not start with whitespace is left as it is by `SkipSpace`. */
  lemma {:induction false} SkipSpaceIdle(s: string)
    requires s == [] || !IsJsonSpace(s[0])
    ensures SkipSpace(s) == s
  {
  }

  /** Reading one member `"k":"v"` followed by `tail`, the closing brace or a comma. */
  lemma {:induction false} DecodeMember(k: string, v: string, tail: string, acc: Object)
    requires tail == "}" || (tail != [] && tail[0] == ',')
    ensures DecodeMembers(Quoted(k, ":" + Quoted(v, tail)), acc)
         == if tail == "}" then Some(Put(acc, k, v))
            else DecodeMembers(SkipSpace(tail[1..]), Put(acc, k, v))
  {
    var r1 := ":" + Quoted(v, tail);
    var s := Quoted(k, r1);
    assert s[0] == '"';
    assert s[1..] == Escape(k) + ("\"" + r1);
    ParseEscaped(k, r1);
    SkipSpaceIdle(r1);
    var q := Quoted(v, tail);
    assert r1[0] == ':' && r1[1..] == q;
    assert q[0] == '"' && q[1..] == Escape(v) + ("\"" + tail);
    SkipSpaceIdle(q);
    ParseEscaped(v, tail);
    SkipSpaceIdle(tail);
    if tail == "}" {
      SkipSpaceIdle(tail[1..]);
    }
  }

  /** Moving the first fresh property into the accumulator keeps the rest fresh. */
  lemma {:induction false} FreshKeysStep(acc: Object, o: Object)
    requires |o| > 1 && FreshKeys(acc, o)
    ensures Get(acc, o[0].0).None?
    ensures FreshKeys(acc + [o[0]], o[1..])
  {
    var acc' := acc + [o[0]];
    forall i, j | 0 <= i < |acc'| && 0 <= j < |o| - 1
      ensures acc'[i].0 != o[1..][j].0
    {
      if i < |acc| {
        assert acc'[i] == acc[i];
      } else {
        assert acc'[i] == o[0];
      }
    }
  }

  lemma {:induction false} MoveFirst<T>(acc: seq<T>, o: seq<T>)
    requires o != []
    ensures (acc + [o[0]]) + o[1..] == acc + o
  {
    assert [o[0]] + o[1..] == o;
  }

  lemma {:induction false} DecodeEncodedMembers(o: Object, acc: Object)
    requires o != [] && FreshKeys(acc, o)
    ensures DecodeMembers(MembersThen(o, "}"), acc) == Some(acc + o)
  {
    var k, v := o[0].0, o[0].1;
    assert Get(acc, k).None? by {
      assert forall i :: 0 <= i < |acc| ==> acc[i].0 != o[0].0;
    }
    var acc' := Put(acc, k, v);
    assert acc' == acc + [o[0]];
    if |o| == 1 {
      DecodeMember(k, v, "}", acc);
      assert o == [o[0]];
    } else {
      var rest := MembersThen(o[1..], "}");
      var tail := "," + rest;
      assert tail != "}" && tail[0] == ',' && tail[1..] == rest;
      FreshKeysStep(acc, o);
      calc {
        DecodeMembers(MembersThen(o, "}"), acc);
        DecodeMembers(Quoted(k, ":" + Quoted(v, tail)), acc);
        { DecodeMember(k, v, tail, acc); }
        DecodeMembers(SkipSpace(rest), acc');
        { assert rest[0] == '"'; SkipSpaceIdle(rest); }
        DecodeMembers(rest, acc');
        { DecodeEncodedMembers(o[1..], acc'); }
        Some(acc' + o[1..]);
        { assert acc' == acc + [o[0]]; }
        Some((acc + [o[0]]) + o[1..]);
        { MoveFirst(acc, o); }
        Some(acc + o);
      }
    }
  }

  /** Decoding what `Encode` wrote gives back the object. */
  lemma {:induction false} EncodeDecode(o: Object)
    requires DistinctKeys(o)
    ensures Decode(Encode(o)) == Some(o)
  {
    var s := Encode(o);
    assert s[0] == '{';
    SkipSpaceIdle(s);
    if o == [] {
      assert s[1..] == "}";
      SkipSpaceIdle(s[1..]);
      SkipSpaceIdle(s[2..]);
    } else {
      assert s[1..] == MembersThen(o, "}");
      assert s[1] == '"';
      SkipSpaceIdle(s[1..]);
      DecodeEncodedMembers(o, []);
      assert [] + o == o;
    }
  }
}

/**
 Local JSON Pointers as `_resolve_local_pointer` reads them.  Text is represented by its UTF-8 encoding, in
 which the characters that matter here are single bytes; percent-decoding then works byte by byte.
 */
module JsonPointer {
  import opened Prelude

  newtype Byte = b: int | 0 <= b < 256
  type Text = seq<Byte>

  const Percent: Byte := 37
  const Hash: Byte := 35
  const Slash: Byte := 47
  const Tilde: Byte := 126
  const Zero: Byte := 48
  const One: Byte := 49

  datatype Json = Obj(members: map<Text, Json>) | Arr(items: seq<Json>) | Leaf
  datatype Part = Key(key: Text) | Index(index: nat)
  type Location = seq<Part>

  // ---------------------------------------------------------------- documents

  function Child(value: Json, part: Part): Option<Json> {
    match part
    case Key(k) => if value.Obj? && k in value.members then Some(value.members[k]) else None
    case Index(i) => if value.Arr? && i < |value.items| then Some(value.items[i]) else None
  }

  /** The value at a location; the locations of a document are those with a value. */
  function At(root: Json, loc: Location): Option<Json> {
    if loc == [] then Some(root)
    else match Child(root, loc[0])
      case None => None
      case Some(child) => At(child, loc[1..])
  }

  // ---------------------------------------------------------------- printing

  /** Section 3 of RFC 6901. */
  function Escape(token: Text): Text {
    if token == [] then []
    else EscapeByte(token[0]) + Escape(token[1..])
  }

  function EscapeByte(b: Byte): Text {
    if b == Tilde then [Tilde, Zero] else if b == Slash then [Tilde, One] else [b]
  }

  function Hex(d: Byte): Byte
    requires d < 16
  {
    if d < 10 then d + 48 else d + 55
  }

  /** Section 6 of RFC 6901: bytes that are not written literally are percent-encoded. */
  function Quote(literal: Byte -> bool, text: Text): Text {
    if text == [] then []
    else QuoteByte(literal, text[0]) + Quote(literal, text[1..])
  }

  function QuoteByte(literal: Byte -> bool, b: Byte): Text {
    if literal(b) && b != Percent then [b] else [Percent, Hex(b / 16), Hex(b % 16)]
  }

  function Decimal(n: nat): Text {
    (if n < 10 then [] else Decimal(n / 10)) + [(n % 10) as Byte + 48]
  }

  function Token(part: Part): Text {
    match part
    case Key(k) => k
    case Index(i) => Decimal(i)
  }

  function PrintParts(literal: Byte -> bool, loc: Location): Text {
    if loc == [] then [] else [Slash] + Quote(literal, Escape(Token(loc[0]))) + PrintParts(literal, loc[1..])
  }

  function Print(literal: Byte -> bool, loc: Location): Text { [Hash] + PrintParts(literal, loc) }

  // ---------------------------------------------------------------- resolving

  predicate IsDigit(b: Byte) { 48 <= b <= 57 }
  predicate IsHex(b: Byte) { IsDigit(b) || 65 <= b <= 70 || 97 <= b <= 102 }

  function HexValue(b: Byte): Byte
    requires IsHex(b)
    ensures HexValue(b) < 16
  {
    if IsDigit(b) then b - 48 else if b <= 70 then b - 55 else b - 87
  }

  /** `unquote` */
  function Unquote(text: Text): Text {
    if text == [] then []
    else if text[0] == Percent && |text| >= 3 && IsHex(text[1]) && IsHex(text[2])
    then [16 * HexValue(text[1]) + HexValue(text[2])] + Unquote(text[3..])
    else [text[0]] + Unquote(text[1..])
  }

  /** `text.replace(a + b, c)` */
  function Replace(text: Text, a: Byte, b: Byte, c: Byte): Text {
    if text == [] then []
    else if |text| >= 2 && text[0] == a && text[1] == b then [c] + Replace(text[2..], a, b, c)
    else [text[0]] + Replace(text[1..], a, b, c)
  }

  function Unescape(raw: Text): Text { Replace(Replace(raw, Tilde, One, Slash), Tilde, Zero, Tilde) }

  /** `text.split("/")` */
  function Split(text: Text): (segments: seq<Text>)
    ensures |segments| > 0
  {
    if text == [] then [[]]
    else if text[0] == Slash then [[]] + Split(text[1..])
    else var rest := Split(text[1..]); [[text[0]] + rest[0]] + rest[1..]
  }

  predicate AllDigits(token: Text) { token != [] && forall i :: 0 <= i < |token| ==> IsDigit(token[i]) }

  function Digit(b: Byte): nat
    requires IsDigit(b)
  {
    b as nat - 48
  }

  function Number(token: Text): nat
    requires forall i :: 0 <= i < |token| ==> IsDigit(token[i])
  {
    if token == [] then 0 else 10 * Number(token[..|token| - 1]) + Digit(token[|token| - 1])
  }

  /** The member or element that a token selects. */
  function Select(value: Json, token: Text): Option<Part> {
    if value.Obj? && token in value.members then Some(Key(token))
    else if value.Arr? && AllDigits(token) && Number(token) < |value.items| then Some(Index(Number(token)))
    else None
  }

  function Walk(value: Json, segments: seq<Text>): Option<Location> {
    if segments == [] then Some([])
    else match Select(value, Unescape(segments[0]))
      case None => None
      case Some(part) =>
        match Walk(Child(value, part).value, segments[1..])
        case None => None
        case Some(rest) => Some([part] + rest)
  }

  /** `_resolve_local_pointer` */
  function Resolve(root: Json, reference: Text): Option<Location> {
    if reference == [Hash] then Some([])
    else if |reference| < 2 || reference[0] != Hash || reference[1] != Slash then None
    else Walk(root, Split(Unquote(reference[2..])))
  }

  /** The loop of `_resolve_local_pointer`, which descends one token at a time. */
  method ResolveLocalPointer(reference: Text, root: Json) returns (target: Option<Location>)
    ensures target == Resolve(root, reference)
  {
    if reference == [Hash] { return Some([]); }
    if |reference| < 2 || reference[0] != Hash || reference[1] != Slash { return None; }
    var segments := Split(Unquote(reference[2..]));
    var parts: Location, current := [], root;
    assert segments[0..] == segments;
    assert forall rest: Location :: [] + rest == rest;
    for i := 0 to |segments|
      invariant Walk(root, segments) == match Walk(current, segments[i..])
                                        case None => None
                                        case Some(rest) => Some(parts + rest)
    {
      var token := Unescape(segments[i]);
      assert segments[i..][1..] == segments[i + 1..];
      var part;
      if current.Obj? && token in current.members {
        part, current := Key(token), current.members[token];
      } else if current.Arr? && AllDigits(token) {
        if Number(token) >= |current.items| { return None; }
        part, current := Index(Number(token)), current.items[Number(token)];
      } else {
        return None;
      }
      ghost var before := parts;
      parts := parts + [part];
      assert forall rest :: parts + rest == before + ([part] + rest);
    }
    assert parts + [] == parts;
    return Some(parts);
  }

  // ---------------------------------------------------------------- each layer is undone

  lemma Regroup(a: Text, b: Text, c: Text)
    ensures (a + b) + c == a + (b + c)
  {
  }

  lemma UnquoteByte(literal: Byte -> bool, b: Byte, rest: Text)
    ensures Unquote(QuoteByte(literal, b) + rest) == [b] + Unquote(rest)
  {
    var text := QuoteByte(literal, b) + rest;
    if literal(b) && b != Percent {
      assert text[0] == b && text[1..] == rest;
    } else {
      assert text[0] == Percent && text[1] == Hex(b / 16) && text[2] == Hex(b % 16) && text[3..] == rest;
    }
  }

  lemma {:induction false} UnquoteQuote(literal: Byte -> bool, text: Text, rest: Text)
    ensures Unquote(Quote(literal, text) + rest) == text + Unquote(rest)
  {
    if text == [] {
      assert Quote(literal, text) + rest == rest;
    } else {
      UnquoteQuote(literal, text[1..], rest);
      UnquoteByte(literal, text[0], Quote(literal, text[1..]) + rest);
      Regroup(QuoteByte(literal, text[0]), Quote(literal, text[1..]), rest);
      Regroup([text[0]], text[1..], Unquote(rest));
      assert [text[0]] + text[1..] == text;
    }
  }

  lemma ReplaceNot(x: Byte, rest: Text, a: Byte, b: Byte, c: Byte)
    requires x != a || rest == [] || rest[0] != b
    ensures Replace([x] + rest, a, b, c) == [x] + Replace(rest, a, b, c)
  {
    assert ([x] + rest)[1..] == rest;
  }

  lemma ReplacePair(rest: Text, a: Byte, b: Byte, c: Byte)
    ensures Replace([a, b] + rest, a, b, c) == [c] + Replace(rest, a, b, c)
  {
    assert ([a, b] + rest)[2..] == rest;
  }

  /** Only the tildes are still escaped after the first replacement. */
  function EscapeTilde(token: Text): Text {
    if token == [] then [] else (if token[0] == Tilde then [Tilde, Zero] else [token[0]]) + EscapeTilde(token[1..])
  }

  lemma {:induction false} ReplaceSlashes(token: Text)
    ensures Replace(Escape(token), Tilde, One, Slash) == EscapeTilde(token)
  {
    if token != [] {
      ReplaceSlashes(token[1..]);
      var rest := Escape(token[1..]);
      if token[0] == Slash {
        ReplacePair(rest, Tilde, One, Slash);
      } else if token[0] == Tilde {
        ReplaceNot(Zero, rest, Tilde, One, Slash);
        ReplaceNot(Tilde, [Zero] + rest, Tilde, One, Slash);
        assert [Tilde, Zero] + rest == [Tilde] + ([Zero] + rest);
      } else {
        ReplaceNot(token[0], rest, Tilde, One, Slash);
      }
    }
  }

  lemma {:induction false} ReplaceTildes(token: Text)
    ensures Replace(EscapeTilde(token), Tilde, Zero, Tilde) == token
  {
    if token != [] {
      ReplaceTildes(token[1..]);
      var rest := EscapeTilde(token[1..]);
      if token[0] == Tilde {
        ReplacePair(rest, Tilde, Zero, Tilde);
      } else {
        ReplaceNot(token[0], rest, Tilde, Zero, Tilde);
      }
      assert [token[0]] + token[1..] == token;
    }
  }

  /** The two replacements, in this order, undo the escaping of every token. */
  lemma UnescapeEscape(token: Text)
    ensures Unescape(Escape(token)) == token
  {
    ReplaceSlashes(token);
    ReplaceTildes(token);
  }

  lemma {:induction false} EscapedHasNoSlash(token: Text)
    ensures Slash !in Escape(token)
  {
    if token != [] {
      EscapedHasNoSlash(token[1..]);
    }
  }

  lemma {:induction false} SplitWord(word: Text, rest: Text)
    requires Slash !in word
    ensures Split(word) == [word]
    ensures Split(word + [Slash] + rest) == [word] + Split(rest)
  {
    if word == [] {
      assert word + [Slash] + rest == [Slash] + rest;
    } else {
      SplitWord(word[1..], rest);
      assert (word + [Slash] + rest)[1..] == word[1..] + [Slash] + rest;
      assert [word[0]] + word[1..] == word;
    }
  }

  lemma AppendDigit(token: Text, d: Byte)
    requires d < 10 && forall i :: 0 <= i < |token| ==> IsDigit(token[i])
    ensures AllDigits(token + [d + 48]) && Number(token + [d + 48]) == 10 * Number(token) + d as nat
  {
    var longer := token + [d + 48];
    assert longer[..|longer| - 1] == token && longer[|longer| - 1] == d + 48;
  }

  lemma {:induction false} NumberDecimal(n: nat)
    ensures AllDigits(Decimal(n)) && Number(Decimal(n)) == n
  {
    var front := if n < 10 then [] else Decimal(n / 10);
    if n >= 10 {
      NumberDecimal(n / 10);
    }
    AppendDigit(front, (n % 10) as Byte);
    assert n == 10 * (n / 10) + n % 10;
  }

  // ---------------------------------------------------------------- round trip

  function Tokens(loc: Location): seq<Text> {
    if loc == [] then [] else [Escape(Token(loc[0]))] + Tokens(loc[1..])
  }

  lemma UnquoteSlash(rest: Text)
    ensures Unquote([Slash] + rest) == [Slash] + Unquote(rest)
  {
    assert ([Slash] + rest)[1..] == rest;
  }

  lemma UnquoteWord(literal: Byte -> bool, word: Text, rest: Text)
    ensures Unquote(Quote(literal, word) + [Slash] + rest) == word + [Slash] + Unquote(rest)
  {
    Regroup(Quote(literal, word), [Slash], rest);
    UnquoteQuote(literal, word, [Slash] + rest);
    UnquoteSlash(rest);
    Regroup(word, [Slash], Unquote(rest));
  }

  /** The last part of a fragment. */
  lemma LastPartSplits(literal: Byte -> bool, part: Part)
    ensures var word := Escape(Token(part)); Split(Unquote(Quote(literal, word))) == [word]
  {
    var word := Escape(Token(part));
    EscapedHasNoSlash(Token(part));
    UnquoteQuote(literal, word, []);
    assert Quote(literal, word) + [] == Quote(literal, word) && word + Unquote([]) == word;
    SplitWord(word, []);
  }

  /** One part of a fragment and what follows it. */
  lemma PartSplits(literal: Byte -> bool, part: Part, rest: Text)
    ensures var word := Escape(Token(part));
      Split(Unquote(Quote(literal, word) + [Slash] + rest)) == [word] + Split(Unquote(rest))
  {
    var word := Escape(Token(part));
    EscapedHasNoSlash(Token(part));
    UnquoteWord(literal, word, rest);
    SplitWord(word, Unquote(rest));
  }

  lemma PrintHead(literal: Byte -> bool, loc: Location)
    requires loc != []
    ensures PrintParts(literal, loc) != [] && PrintParts(literal, loc)[0] == Slash
    ensures PrintParts(literal, loc)[1..] == Quote(literal, Escape(Token(loc[0]))) + PrintParts(literal, loc[1..])
  {
    Behead(Slash, Quote(literal, Escape(Token(loc[0]))), PrintParts(literal, loc[1..]));
  }

  lemma Behead(x: Byte, a: Text, b: Text)
    ensures ([x] + a + b)[1..] == a + b && ([x] + a + b)[0] == x
  {
  }

  lemma FirstOfMany(literal: Byte -> bool, part: Part, rest: Text)
    requires rest != [] && rest[0] == Slash
    ensures Split(Unquote(Quote(literal, Escape(Token(part))) + rest)) == [Escape(Token(part))] + Split(Unquote(rest[1..]))
  {
    var word := Quote(literal, Escape(Token(part)));
    assert word + rest == word + [Slash] + rest[1..];
    PartSplits(literal, part, rest[1..]);
  }

  lemma OnlyOne(literal: Byte -> bool, part: Part)
    ensures Split(Unquote(Quote(literal, Escape(Token(part))) + [])) == [Escape(Token(part))]
  {
    assert Quote(literal, Escape(Token(part))) + [] == Quote(literal, Escape(Token(part)));
    LastPartSplits(literal, part);
  }

  lemma {:induction false} FragmentSplits(literal: Byte -> bool, loc: Location)
    requires loc != []
    ensures PrintParts(literal, loc) != [] && Split(Unquote(PrintParts(literal, loc)[1..])) == Tokens(loc)
  {
    PrintHead(literal, loc);
    if loc[1..] == [] {
      OnlyOne(literal, loc[0]);
      assert Tokens(loc) == [Escape(Token(loc[0]))];
    } else {
      FragmentSplits(literal, loc[1..]);
      PrintHead(literal, loc[1..]);
      FirstOfMany(literal, loc[0], PrintParts(literal, loc[1..]));
    }
  }

  lemma TokenSelects(value: Json, part: Part)
    requires Child(value, part).Some?
    ensures Select(value, Unescape(Escape(Token(part)))) == Some(part)
  {
    UnescapeEscape(Token(part));
    if part.Index? { NumberDecimal(part.index); }
  }

  lemma {:induction false} WalkTokens(value: Json, loc: Location)
    requires At(value, loc).Some?
    ensures Walk(value, Tokens(loc)) == Some(loc)
  {
    if loc != [] {
      TokenSelects(value, loc[0]);
      WalkTokens(Child(value, loc[0]).value, loc[1..]);
      assert Tokens(loc)[0] == Escape(Token(loc[0])) && Tokens(loc)[1..] == Tokens(loc[1..]);
      assert [loc[0]] + loc[1..] == loc;
    }
  }

  /** Printing a location and resolving the pointer gives the location back, whatever is written literally. */
  lemma RoundTrip(literal: Byte -> bool, root: Json, loc: Location)
    requires At(root, loc).Some?
    ensures Resolve(root, Print(literal, loc)) == Some(loc)
  {
    if loc != [] {
      FragmentSplits(literal, loc);
      Prefixed(literal, loc);
      WalkTokens(root, loc);
    }
  }

  lemma Prefixed(literal: Byte -> bool, loc: Location)
    requires loc != []
    ensures var text := Print(literal, loc);
      |text| >= 2 && text[0] == Hash && text[1] == Slash && text[2..] == PrintParts(literal, loc)[1..]
  {
    PrintHead(literal, loc);
    var parts := PrintParts(literal, loc);
    assert ([Hash] + parts)[1] == parts[0] && ([Hash] + parts)[2..] == parts[1..];
  }

  /** Two locations of a document never share a pointer. */
  lemma PointersAreDistinct(literal: Byte -> bool, other: Byte -> bool, root: Json, a: Location, b: Location)
    requires At(root, a).Some? && At(root, b).Some? && Print(literal, a) == Print(other, b)
    ensures a == b
  {
    RoundTrip(literal, root, a);
    RoundTrip(other, root, b);
  }

  // ---------------------------------------------------------------- what else resolves

  /** A token that selects this part: a key as it is, an index with any number of leading zeros. */
  predicate Names(token: Text, part: Part) {
    match part
    case Key(k) => token == k
    case Index(i) => AllDigits(token) && Number(token) == i
  }

  predicate AllNamed(segments: seq<Text>, loc: Location) {
    if segments == [] || loc == [] then segments == [] && loc == []
    else Names(Unescape(segments[0]), loc[0]) && AllNamed(segments[1..], loc[1..])
  }

  /**
   A fragment resolves to exactly those locations of the document whose parts its tokens name.  Leading zeros,
   which section 4 of RFC 6901 rules out, are accepted.
   */
  lemma {:induction false} WalkIsExact(value: Json, segments: seq<Text>, loc: Location)
    ensures Walk(value, segments) == Some(loc) <==> At(value, loc).Some? && AllNamed(segments, loc)
  {
    if segments != [] && loc != [] {
      SelectIsExact(value, Unescape(segments[0]), loc[0]);
      if Select(value, Unescape(segments[0])) == Some(loc[0]) {
        WalkIsExact(Child(value, loc[0]).value, segments[1..], loc[1..]);
        assert [loc[0]] + loc[1..] == loc;
        assert forall rest: Location :: [loc[0]] + rest == loc ==> rest == loc[1..];
      }
    }
  }

  lemma SelectIsExact(value: Json, token: Text, part: Part)
    ensures Select(value, token) == Some(part) <==> Child(value, part).Some? && Names(token, part)
  {
  }

  /** Resolving stays inside the document. */
  lemma ResolvesToALocation(root: Json, reference: Text, loc: Location)
    requires Resolve(root, reference) == Some(loc)
    ensures At(root, loc).Some?
  {
    if reference != [Hash] {
      WalkIsExact(root, Split(Unquote(reference[2..])), loc);
    }
  }

  /** The first element of a list under a pointer that RFC 6901 does not allow. */
  lemma LeadingZerosResolve(first: Json)
    ensures Resolve(Arr([first]), [Hash, Slash, Zero, Zero]) == Some([Index(0)])
    ensures forall literal :: Print(literal, [Index(0)]) != [Hash, Slash, Zero, Zero]
  {
    var word: Text := [Zero, Zero];
    assert [Hash, Slash, Zero, Zero][2..] == word;
    assert word[1..] == [Zero] && [Zero][1..] == [];
    assert Unquote([Zero]) == [Zero];
    assert Unquote(word) == [Zero] + Unquote(word[1..]);
    SplitWord(word, []);
    assert [Zero] + [] == [Zero] && [Zero] + [Zero] == word;
    ReplaceNot(Zero, [], Tilde, One, Slash);
    ReplaceNot(Zero, [Zero], Tilde, One, Slash);
    ReplaceNot(Zero, [], Tilde, Zero, Tilde);
    ReplaceNot(Zero, [Zero], Tilde, Zero, Tilde);
    ZerosName(first);
    forall literal ensures Print(literal, [Index(0)]) != [Hash, Slash, Zero, Zero] {
      PrintedZero(literal);
    }
  }

  lemma ZerosAreZero()
    ensures Number([Zero]) == 0 && Number([Zero, Zero]) == 0
  {
    var one: Text, two: Text := [Zero], [Zero, Zero];
    assert one[..|one| - 1] == [] && Number([]) == 0 && Digit(Zero) == 0;
    assert Number(one) == 0;
    assert two[..|two| - 1] == one && two[|two| - 1] == Zero;
    assert Number(two) == 10 * Number(one) + Digit(Zero);
  }

  lemma ZerosName(first: Json)
    requires Unescape([Zero, Zero]) == [Zero, Zero]
    ensures Walk(Arr([first]), [[Zero, Zero]]) == Some([Index(0)])
  {
    var loc: Location := [Index(0)];
    ZerosAreZero();
    assert Names([Zero, Zero], Index(0));
    assert loc[1..] == [] && At(Arr([first]), loc).Some?;
    assert AllNamed([[Zero, Zero]], loc);
    WalkIsExact(Arr([first]), [[Zero, Zero]], loc);
  }

  lemma PrintedZero(literal: Byte -> bool)
    ensures Print(literal, [Index(0)]) == [Hash, Slash] + QuoteByte(literal, Zero)
  {
    assert Decimal(0) == [Zero];
    assert Escape([Zero]) == [Zero];
    assert Quote(literal, [Zero]) == QuoteByte(literal, Zero);
    assert [Index(0)][1..] == [];
  }
}

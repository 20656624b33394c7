/** The vertex-format descriptor of `ObjectLoader`: parsing `"N3F_V3F"`-style strings,
    the floats-per-vertex sum, and how each attribute is wired into the vertex array. */
module VertexFormat {
  import opened Wrappers
  import opened StrSplit
  import opened Gl

  /** One descriptor token: a one-character tag, a width in floats, and the offset
      in floats of this attribute within a vertex. */
  datatype Attribute = Attribute(tag: char, width: nat, offset: nat)

  /** Why a token cannot be read: `part[0]` or `part[1]` is out of range (an
      IndexError), or `int(part[1])` is not a digit (a ValueError). `index` is the
      position of the offending token. */
  datatype FormatError = TokenTooShort(index: nat) | WidthNotDigit(index: nat)

  const Separator: char := '_'

  predicate IsDigit(c: char) {
    '0' <= c <= '9'
  }

  function DigitValue(c: char): (d: nat)
    requires IsDigit(c)
    ensures d <= 9
  {
    c as int - '0' as int
  }

  /** A token `_parse_format` can read: a tag followed by a digit. */
  predicate WellFormedToken(t: string) {
    |t| >= 2 && IsDigit(t[1])
  }

  /** The sum of the widths, the floats per vertex of a format. */
  function TotalWidth(attrs: seq<Attribute>): (n: nat)
    ensures forall i :: 0 <= i < |attrs| ==> attrs[i].width <= n
    ensures n == 0 <==> forall i :: 0 <= i < |attrs| ==> attrs[i].width == 0
  {
    if attrs == [] then 0 else TotalWidth(attrs[..|attrs| - 1]) + attrs[|attrs| - 1].width
  }

  /** `sum(int(tokens[j][1]) for j in range(i))`: the widths of the first `i` tokens. */
  function WidthsBefore(tokens: seq<string>, i: nat): (n: nat)
    requires i <= |tokens| && forall j :: 0 <= j < i ==> WellFormedToken(tokens[j])
    ensures n <= 9 * i
  {
    if i == 0 then 0
    else
      assert WellFormedToken(tokens[i - 1]);
      WidthsBefore(tokens, i - 1) + DigitValue(tokens[i - 1][1])
  }

  /** What `_parse_format` yields for the `_`-separated tokens of a format. On
      success there is one attribute per token, in token order, with the token's
      first character as its tag, its second character read as a digit as its
      width, and the widths of all earlier tokens summed as its offset. On failure
      the error names the first token that cannot be read and says why. */
  ghost predicate ReadsTokens(tokens: seq<string>, r: Result<seq<Attribute>, FormatError>) {
    match r
    case Success(attrs) =>
      (forall i :: 0 <= i < |tokens| ==> WellFormedToken(tokens[i])) &&
      |attrs| == |tokens| &&
      forall i {:trigger attrs[i]} :: 0 <= i < |tokens| ==>
        WellFormedToken(tokens[i]) &&
        attrs[i] == Attribute(tokens[i][0], DigitValue(tokens[i][1]), WidthsBefore(tokens, i))
    case Failure(e) =>
      e.index < |tokens| &&
      (forall j :: 0 <= j < e.index ==> WellFormedToken(tokens[j])) &&
      !WellFormedToken(tokens[e.index]) &&
      (e.TokenTooShort? <==> |tokens[e.index]| < 2)
  }

  /** What `_parse_format(format)` yields: the reading of `format.split('_')`. */
  ghost predicate DescribesFormat(format: string, r: Result<seq<Attribute>, FormatError>) {
    ReadsTokens(Split(format, Separator), r)
  }

  method ParseFormat(format: string) returns (r: Result<seq<Attribute>, FormatError>)
    ensures DescribesFormat(format, r)
  {
    r := ParseTokens(Split(format, Separator));
  }

  /** The loop of `_parse_format` over the tokens; each offset is recomputed by
      summing the widths of the tokens before it, as the source does. */
  method ParseTokens(tokens: seq<string>) returns (r: Result<seq<Attribute>, FormatError>)
    ensures ReadsTokens(tokens, r)
  {
    var result: seq<Attribute> := [];
    for i := 0 to |tokens|
      invariant |result| == i
      invariant forall j :: 0 <= j < i ==> WellFormedToken(tokens[j])
      invariant forall j {:trigger result[j]} :: 0 <= j < i ==>
        WellFormedToken(tokens[j]) &&
        result[j] == Attribute(tokens[j][0], DigitValue(tokens[j][1]), WidthsBefore(tokens, j))
    {
      var part := tokens[i];
      if |part| < 2 {
        return Failure(TokenTooShort(i));
      }
      var primitive := part[0];
      if !IsDigit(part[1]) {
        return Failure(WidthNotDigit(i));
      }
      var nFloats := DigitValue(part[1]);
      var offset := 0;
      for j := 0 to i
        invariant offset == WidthsBefore(tokens, j)
      {
        offset := offset + DigitValue(tokens[j][1]);
      }
      result := result + [Attribute(primitive, nFloats, offset)];
    }
    return Success(result);
  }

  /** The first token that cannot be read is unique. */
  lemma FirstBadTokenUnique(tokens: seq<string>, i: nat, j: nat)
    requires i < |tokens| && j < |tokens|
    requires forall k :: 0 <= k < i ==> WellFormedToken(tokens[k])
    requires forall k :: 0 <= k < j ==> WellFormedToken(tokens[k])
    requires !WellFormedToken(tokens[i]) && !WellFormedToken(tokens[j])
    ensures i == j
  {
  }

  /** The description leaves no choice: at most one result fits a descriptor. */
  lemma ParseIsDetermined(format: string, r1: Result<seq<Attribute>, FormatError>, r2: Result<seq<Attribute>, FormatError>)
    requires DescribesFormat(format, r1) && DescribesFormat(format, r2)
    ensures r1 == r2
  {
    var tokens := Split(format, Separator);
    if r1.Failure? && r2.Failure? {
      FirstBadTokenUnique(tokens, r1.error.index, r2.error.index);
    } else if r1.Success? && r2.Success? {
      assert forall i :: 0 <= i < |tokens| ==> r1.value[i] == r2.value[i];
      assert r1.value == r2.value;
    }
  }

  /** Offsets are running sums: the first is 0, each next one is the previous offset
      plus the previous width, each equals the total width of the attributes before
      it, and the floats per vertex is where the last attribute ends. */
  lemma OffsetsArePrefixSums(format: string, attrs: seq<Attribute>)
    requires DescribesFormat(format, Success(attrs))
    ensures |attrs| >= 1 && attrs[0].offset == 0
    ensures forall i :: 0 <= i < |attrs| - 1 ==> attrs[i + 1].offset == attrs[i].offset + attrs[i].width
    ensures forall i :: 0 <= i < |attrs| ==> attrs[i].offset == TotalWidth(attrs[..i])
    ensures TotalWidth(attrs) == attrs[|attrs| - 1].offset + attrs[|attrs| - 1].width
  {
    var tokens := Split(format, Separator);
    forall i | 0 <= i < |attrs| - 1
      ensures attrs[i + 1].offset == attrs[i].offset + attrs[i].width
    {
      assert attrs[i + 1].offset == WidthsBefore(tokens, i + 1);
    }
    forall i | 0 <= i <= |attrs|
      ensures WidthsBefore(tokens, i) == TotalWidth(attrs[..i])
    {
      WidthsBeforeIsTotalWidth(tokens, attrs, i);
    }
    assert attrs[..|attrs|] == attrs;
  }

  /** The token sum of line 56 agrees with the attribute sum of line 11 on every prefix. */
  lemma {:induction false} WidthsBeforeIsTotalWidth(tokens: seq<string>, attrs: seq<Attribute>, i: nat)
    requires |attrs| == |tokens| && i <= |tokens|
    requires forall j :: 0 <= j < |tokens| ==> WellFormedToken(tokens[j])
    requires forall j :: 0 <= j < |tokens| ==> WellFormedToken(tokens[j]) && attrs[j].width == DigitValue(tokens[j][1])
    ensures WidthsBefore(tokens, i) == TotalWidth(attrs[..i])
  {
    if i > 0 {
      WidthsBeforeIsTotalWidth(tokens, attrs, i - 1);
      assert attrs[..i][..i - 1] == attrs[..i - 1];
    }
  }

  /** The byte distance between consecutive vertices: four bytes per float. */
  function Stride(floatsPerVertex: nat): nat {
    4 * floatsPerVertex
  }

  /** The byte offset of an attribute within a vertex. */
  function ByteOffset(a: Attribute): nat {
    4 * a.offset
  }

  /** The shader input location of each tag: V (position) 0, N (normal) 1,
      T (texture coordinate) 2; any other tag has none. */
  function AttributeLocation(tag: char): (loc: Option<nat>)
    ensures loc.Some? <==> tag == 'V' || tag == 'N' || tag == 'T'
    ensures loc.Some? ==> loc.value < 3
  {
    if tag == 'V' then Some(0)
    else if tag == 'N' then Some(1)
    else if tag == 'T' then Some(2)
    else None
  }

  /** Different tags never share a location, and every location is one of 0, 1, 2. */
  lemma AttributeLocationsDistinct(t1: char, t2: char)
    requires AttributeLocation(t1).Some? && AttributeLocation(t2).Some?
    ensures AttributeLocation(t1).value < 3
    ensures AttributeLocation(t1) == AttributeLocation(t2) <==> t1 == t2
  {
  }

  predicate KnownTags(attrs: seq<Attribute>) {
    forall i :: 0 <= i < |attrs| ==> AttributeLocation(attrs[i].tag).Some?
  }

  /** The position of the first attribute whose tag has no location, or `|attrs|`
      when every tag has one: where the `matches[name]` lookup raises a KeyError. */
  function FirstUnknownTag(attrs: seq<Attribute>): (k: nat)
    ensures k <= |attrs|
    ensures KnownTags(attrs[..k])
    ensures k < |attrs| ==> AttributeLocation(attrs[k].tag).None?
  {
    if attrs == [] then 0
    else if AttributeLocation(attrs[0].tag).None? then 0
    else
      var k := FirstUnknownTag(attrs[1..]);
      assert attrs[..k + 1] == [attrs[0]] + attrs[1..][..k];
      k + 1
  }

  /** An unknown tag after only known ones is the first unknown tag. */
  lemma FirstUnknownTagAt(attrs: seq<Attribute>, i: nat)
    requires i < |attrs| && KnownTags(attrs[..i]) && AttributeLocation(attrs[i].tag).None?
    ensures FirstUnknownTag(attrs) == i
  {
  }

  /** The `glVertexAttribPointer` / `glEnableVertexAttribArray` pair issued for each
      attribute, in format order. */
  function AttributeCalls(attrs: seq<Attribute>, floatsPerVertex: nat): seq<Call>
    requires KnownTags(attrs)
  {
    if attrs == [] then []
    else
      var a := attrs[|attrs| - 1];
      var location := AttributeLocation(a.tag).value;
      AttributeCalls(attrs[..|attrs| - 1], floatsPerVertex) +
      [VertexAttribPointer(location, a.width, Stride(floatsPerVertex), ByteOffset(a)),
       EnableVertexAttribArray(location)]
  }

  /** Attribute `i` is wired by calls `2i` and `2i+1`: its location, its width in
      floats, the shared stride, and its byte offset, then the location is enabled. */
  lemma {:induction false} AttributeCallsAt(attrs: seq<Attribute>, floatsPerVertex: nat, i: nat)
    requires KnownTags(attrs) && i < |attrs|
    ensures |AttributeCalls(attrs, floatsPerVertex)| == 2 * |attrs|
    ensures var location := AttributeLocation(attrs[i].tag).value;
      AttributeCalls(attrs, floatsPerVertex)[2 * i] ==
        VertexAttribPointer(location, attrs[i].width, 4 * floatsPerVertex, 4 * attrs[i].offset) &&
      AttributeCalls(attrs, floatsPerVertex)[2 * i + 1] == EnableVertexAttribArray(location)
    decreases |attrs|
  {
    var n := |attrs|;
    var init := attrs[..n - 1];
    assert KnownTags(init) by {
      forall j | 0 <= j < |init| ensures AttributeLocation(init[j].tag).Some? {
        assert init[j] == attrs[j];
      }
    }
    if i < n - 1 {
      AttributeCallsAt(init, floatsPerVertex, i);
      assert init[i] == attrs[i];
    } else if n > 1 {
      AttributeCallsAt(init, floatsPerVertex, 0);
    }
  }

  /** The configured descriptor `"N3F_V3F"`: a normal of 3 floats at offset 0, then a
      position of 3 floats at offset 3, six floats (24 bytes) per vertex. */
  lemma ConfiguredFormat()
    ensures DescribesFormat("N3F_V3F", Success([Attribute('N', 3, 0), Attribute('V', 3, 3)]))
    ensures TotalWidth([Attribute('N', 3, 0), Attribute('V', 3, 3)]) == 6
    ensures Stride(6) == 24
  {
    var pieces := ["N3F", "V3F"];
    assert Join(pieces, Separator) == "N3F_V3F" by {
      assert Join(pieces[1..], Separator) == "V3F";
    }
    SplitJoin(pieces, Separator);
    var attrs := [Attribute('N', 3, 0), Attribute('V', 3, 3)];
    assert TotalWidth(attrs[..0]) == 0;
    assert TotalWidth(attrs[..1]) == 3 by { assert attrs[..1][..0] == []; }
    assert TotalWidth(attrs) == 6 by { assert attrs[..1] == attrs[..2][..1] && attrs[..2] == attrs; }
    forall i | 0 <= i < 2
      ensures WellFormedToken(pieces[i])
      ensures attrs[i] == Attribute(pieces[i][0], DigitValue(pieces[i][1]), WidthsBefore(pieces, i))
    {
    }
    DescribesTokens("N3F_V3F", pieces, attrs);
  }

  /** A textured descriptor `"T2F_N3F_V3F"`: offsets 0, 2 and 5, eight floats per vertex. */
  lemma TexturedFormat()
    ensures DescribesFormat("T2F_N3F_V3F",
      Success([Attribute('T', 2, 0), Attribute('N', 3, 2), Attribute('V', 3, 5)]))
    ensures TotalWidth([Attribute('T', 2, 0), Attribute('N', 3, 2), Attribute('V', 3, 5)]) == 8
  {
    TexturedTokens();
    TexturedWidths();
    TexturedReading();
  }

  /** The three tokens of the textured format read as its three attributes. */
  lemma TexturedReading()
    ensures ReadsTokens(["T2F", "N3F", "V3F"],
      Success([Attribute('T', 2, 0), Attribute('N', 3, 2), Attribute('V', 3, 5)]))
  {
    var pieces := ["T2F", "N3F", "V3F"];
    var attrs := [Attribute('T', 2, 0), Attribute('N', 3, 2), Attribute('V', 3, 5)];
    forall i | 0 <= i < |pieces|
      ensures WellFormedToken(pieces[i])
      ensures attrs[i] == Attribute(pieces[i][0], DigitValue(pieces[i][1]), WidthsBefore(pieces, i))
    {
      TexturedToken(i);
    }
  }

  /** Each token of the textured format reads as its attribute. */
  lemma TexturedToken(i: nat)
    requires i < 3
    ensures WellFormedToken(["T2F", "N3F", "V3F"][i])
    ensures [Attribute('T', 2, 0), Attribute('N', 3, 2), Attribute('V', 3, 5)][i] ==
      Attribute(["T2F", "N3F", "V3F"][i][0], DigitValue(["T2F", "N3F", "V3F"][i][1]),
        WidthsBefore(["T2F", "N3F", "V3F"], i))
  {
    TexturedWidths();
  }

  /** The textured format splits into its three tokens. */
  lemma TexturedTokens()
    ensures Split("T2F_N3F_V3F", Separator) == ["T2F", "N3F", "V3F"]
  {
    var pieces := ["T2F", "N3F", "V3F"];
    assert Join(pieces, Separator) == "T2F_N3F_V3F" by {
      assert Join(pieces[2..], Separator) == "V3F";
      assert Join(pieces[1..], Separator) == "N3F_V3F";
    }
    SplitJoin(pieces, Separator);
  }

  /** Widths and offsets of the textured format. */
  lemma TexturedWidths()
    ensures WidthsBefore(["T2F", "N3F", "V3F"], 1) == 2
    ensures WidthsBefore(["T2F", "N3F", "V3F"], 2) == 5
    ensures TotalWidth([Attribute('T', 2, 0), Attribute('N', 3, 2), Attribute('V', 3, 5)]) == 8
  {
    var attrs := [Attribute('T', 2, 0), Attribute('N', 3, 2), Attribute('V', 3, 5)];
    assert TotalWidth(attrs[..0]) == 0;
    assert TotalWidth(attrs[..1]) == 2 by { assert attrs[..1][..0] == []; }
    assert TotalWidth(attrs[..2]) == 5 by { assert attrs[..2][..1] == attrs[..1]; }
    assert TotalWidth(attrs) == 8 by { assert attrs[..2] == attrs[..3][..2] && attrs[..3] == attrs; }
  }

  /** A format whose tokens are known describes the attributes built from them. */
  lemma DescribesTokens(format: string, tokens: seq<string>, attrs: seq<Attribute>)
    requires Split(format, Separator) == tokens
    requires |attrs| == |tokens|
    requires forall i :: 0 <= i < |tokens| ==> WellFormedToken(tokens[i])
    requires forall i :: 0 <= i < |tokens| ==>
      WellFormedToken(tokens[i]) &&
      attrs[i] == Attribute(tokens[i][0], DigitValue(tokens[i][1]), WidthsBefore(tokens, i))
    ensures DescribesFormat(format, Success(attrs))
  {
  }

  /** The configured format is wired as a normal at location 1 (byte offset 0) and a
      position at location 0 (byte offset 12), both with a 24-byte stride. */
  lemma ConfiguredWiring()
    ensures KnownTags([Attribute('N', 3, 0), Attribute('V', 3, 3)])
    ensures AttributeCalls([Attribute('N', 3, 0), Attribute('V', 3, 3)], 6) ==
      [VertexAttribPointer(1, 3, 24, 0), EnableVertexAttribArray(1),
       VertexAttribPointer(0, 3, 24, 12), EnableVertexAttribArray(0)]
  {
    var attrs := [Attribute('N', 3, 0), Attribute('V', 3, 3)];
    assert attrs[..1] == [attrs[0]] && attrs[..1][..0] == [];
  }
}

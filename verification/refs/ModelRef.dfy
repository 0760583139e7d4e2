/** Model references, `provider/api@percent-encoded-model-id`, as three clients take them
    apart. Bytes throughout; percent-encoding follows sections 2.1 and 2.3 of RFC 3986. */
module ModelRef {
  import opened Bytes
  import opened Options

  const SLASH: Byte := 0x2F
  const AT: Byte := 0x40
  const PERCENT: Byte := 0x25
  const PLUS: Byte := 0x2B

  datatype Ref = Ref(provider: seq<Byte>, api: seq<Byte>, model: seq<Byte>)

  // ---------- percent-encoding

  predicate IsUnreserved(b: Byte) {
    0x41 <= b <= 0x5A || 0x61 <= b <= 0x7A || 0x30 <= b <= 0x39
    || b == 0x2D || b == 0x2E || b == 0x5F || b == 0x7E
  }

  predicate IsHexDigit(b: Byte) {
    0x30 <= b <= 0x39 || 0x41 <= b <= 0x46 || 0x61 <= b <= 0x66
  }

  function HexValue(b: Byte): (v: int)
    ensures 0 <= v < 16
  {
    if 0x30 <= b <= 0x39 then b as int - 0x30
    else if 0x41 <= b <= 0x46 then b as int - 0x41 + 10
    else if 0x61 <= b <= 0x66 then b as int - 0x61 + 10
    else 0
  }

  function HexDigit(v: int): Byte
    requires 0 <= v < 16
  {
    if v < 10 then 0x30 + v else 0x41 + v - 10
  }

  function EncodeByte(b: Byte): seq<Byte> {
    if IsUnreserved(b) then [b] else [PERCENT, HexDigit(b as int / 16), HexDigit(b as int % 16)]
  }

  function Encode(id: seq<Byte>): seq<Byte> {
    if id == [] then [] else EncodeByte(id[0]) + Encode(id[1..])
  }

  predicate Escape(s: seq<Byte>) {
    |s| >= 3 && s[0] == PERCENT && IsHexDigit(s[1]) && IsHexDigit(s[2])
  }

  /** Unreserved bytes and escapes, nothing else. */
  predicate Canonical(s: seq<Byte>) {
    if s == [] then true
    else if Escape(s) then Canonical(s[3..])
    else IsUnreserved(s[0]) && Canonical(s[1..])
  }

  /** Escapes replaced by the bytes they stand for. */
  function Decode(s: seq<Byte>): seq<Byte> {
    if s == [] then []
    else if Escape(s) then [HexValue(s[1]) * 16 + HexValue(s[2])] + Decode(s[3..])
    else [s[0]] + Decode(s[1..])
  }

  lemma {:induction false} DecodeEncode(id: seq<Byte>)
    ensures Canonical(Encode(id)) && Decode(Encode(id)) == id
  {
    if id != [] {
      DecodeEncode(id[1..]);
      var e, rest := EncodeByte(id[0]), Encode(id[1..]);
      var all := e + rest;
      assert all[|e|..] == rest;
      assert id == [id[0]] + id[1..];
      if !IsUnreserved(id[0]) {
        assert Escape(all) && HexValue(all[1]) == id[0] as int / 16 && HexValue(all[2]) == id[0] as int % 16;
      } else {
        assert all[1..] == rest;
      }
    }
  }

  lemma {:induction false} CanonicalHasNoSeparator(s: seq<Byte>)
    requires Canonical(s)
    ensures forall i :: 0 <= i < |s| ==> s[i] != SLASH && s[i] != AT
  {
    if s != [] {
      if Escape(s) {
        CanonicalHasNoSeparator(s[3..]);
        assert s == s[..3] + s[3..];
      } else {
        CanonicalHasNoSeparator(s[1..]);
        assert s == [s[0]] + s[1..];
      }
    }
  }

  /** The Go check, index by index. */
  method IsCanonicallyEncoded(segment: seq<Byte>) returns (ok: bool)
    ensures ok <==> Canonical(segment)
  {
    var i := 0;
    assert segment[0..] == segment;
    while i < |segment|
      invariant 0 <= i <= |segment|
      invariant Canonical(segment) <==> Canonical(segment[i..])
    {
      var c := segment[i];
      var rest := segment[i..];
      assert rest[1..] == segment[i + 1..];
      if c == PERCENT {
        if i + 2 >= |segment| || !IsHexDigit(segment[i + 1]) || !IsHexDigit(segment[i + 2]) {
          assert !Escape(rest);
          return false;
        }
        assert Escape(rest) && rest[3..] == segment[i + 3..];
        i := i + 3;
        continue;
      }
      if !IsUnreserved(c) {
        return false;
      }
      i := i + 1;
    }
    return true;
  }

  /** Rust's radix parser also takes a sign before the last digit. */
  predicate RustEscape(s: seq<Byte>) {
    |s| >= 3 && s[0] == PERCENT && (IsHexDigit(s[1]) || s[1] == PLUS) && IsHexDigit(s[2])
  }

  function RustDecodeBytes(s: seq<Byte>): seq<Byte> {
    if s == [] then []
    else if RustEscape(s) then [HexValue(s[1]) * 16 + HexValue(s[2])] + RustDecodeBytes(s[3..])
    else [s[0]] + RustDecodeBytes(s[1..])
  }

  function RustDecode(value: seq<Byte>): seq<Byte> {
    if ValidUtf8(RustDecodeBytes(value)) then RustDecodeBytes(value) else value
  }

  lemma RustStep(value: seq<Byte>, index: nat, out: seq<Byte>)
    requires index < |value|
    ensures
      var rest := value[index..];
      out + RustDecodeBytes(rest) ==
        if RustEscape(rest) then (out + [HexValue(value[index + 1]) * 16 + HexValue(value[index + 2])]) + RustDecodeBytes(value[index + 3..])
        else (out + [value[index]]) + RustDecodeBytes(value[index + 1..])
    ensures RustEscape(value[index..]) <==>
      index + 3 <= |value| && value[index] == PERCENT
      && (IsHexDigit(value[index + 1]) || value[index + 1] == PLUS) && IsHexDigit(value[index + 2])
  {
    var rest := value[index..];
    assert rest[1..] == value[index + 1..];
    if RustEscape(rest) {
      assert rest[3..] == value[index + 3..];
    }
  }

  /** The Rust decoder: bytes that are no escape stay; what is not UTF-8 is left encoded. */
  method PercentDecode(value: seq<Byte>) returns (decoded: seq<Byte>)
    ensures decoded == RustDecode(value)
  {
    var out: seq<Byte>, index := [], 0;
    assert value[0..] == value;
    while index < |value|
      invariant 0 <= index <= |value|
      invariant out + RustDecodeBytes(value[index..]) == RustDecodeBytes(value)
    {
      var byte := value[index];
      RustStep(value, index, out);
      if byte == PERCENT && index + 3 <= |value|
         && (IsHexDigit(value[index + 1]) || value[index + 1] == PLUS) && IsHexDigit(value[index + 2]) {
        out := out + [HexValue(value[index + 1]) * 16 + HexValue(value[index + 2])];
        index := index + 3;
      } else {
        out := out + [byte];
        index := index + 1;
      }
    }
    assert out + [] == out;
    decoded := if ValidUtf8(out) then out else value;
  }

  lemma {:induction false} CanonicalDecodesAlike(s: seq<Byte>)
    requires Canonical(s)
    ensures RustDecodeBytes(s) == Decode(s)
  {
    if s != [] {
      if Escape(s) {
        CanonicalDecodesAlike(s[3..]);
      } else {
        CanonicalDecodesAlike(s[1..]);
      }
    }
  }

  // ---------- UTF-8 (section 4 of RFC 3629)

  predicate Tail(b: Byte) { 0x80 <= b <= 0xBF }

  /** The length of the well-formed character at the front, 0 if there is none. */
  function CharLength(s: seq<Byte>): (n: nat)
    ensures n <= |s|
  {
    if s == [] then 0
    else if s[0] <= 0x7F then 1
    else if 0xC2 <= s[0] <= 0xDF then (if |s| >= 2 && Tail(s[1]) then 2 else 0)
    else if 0xE0 <= s[0] <= 0xEF then
      if |s| >= 3 && Tail(s[1]) && Tail(s[2])
         && (s[0] == 0xE0 ==> s[1] >= 0xA0) && (s[0] == 0xED ==> s[1] <= 0x9F) then 3 else 0
    else if 0xF0 <= s[0] <= 0xF4 then
      if |s| >= 4 && Tail(s[1]) && Tail(s[2]) && Tail(s[3])
         && (s[0] == 0xF0 ==> s[1] >= 0x90) && (s[0] == 0xF4 ==> s[1] <= 0x8F) then 4 else 0
    else 0
  }

  predicate ValidUtf8(s: seq<Byte>)
    decreases |s|
  {
    s == [] || (CharLength(s) > 0 && ValidUtf8(s[CharLength(s)..]))
  }

  // ---------- taking a reference apart

  /** The first `b`; the length if there is none. */
  function Find(s: seq<Byte>, b: Byte): (k: nat)
    ensures k <= |s|
    ensures forall i :: 0 <= i < k ==> s[i] != b
    ensures k < |s| ==> s[k] == b
  {
    FindFrom(s, b, 0)
  }

  function FindFrom(s: seq<Byte>, b: Byte, from: nat): (k: nat)
    requires from <= |s|
    ensures from <= k <= |s|
    ensures forall i :: from <= i < k ==> s[i] != b
    ensures k < |s| ==> s[k] == b
    decreases |s| - from
  {
    if from == |s| || s[from] == b then from else FindFrom(s, b, from + 1)
  }

  predicate Has(s: seq<Byte>, b: Byte) {
    Find(s, b) < |s|
  }

  predicate Plain(s: seq<Byte>) {
    s != [] && !Has(s, SLASH) && !Has(s, AT) && !Has(s, PERCENT)
  }

  /** Cut at the first '/' and at the first '@' after it. */
  function CutTwice(ref: seq<Byte>): Option<Ref> {
    var slash := Find(ref, SLASH);
    if slash == |ref| then None else CutRest(ref[..slash], ref[slash + 1..])
  }

  function CutRest(provider: seq<Byte>, rest: seq<Byte>): Option<Ref> {
    var at := Find(rest, AT);
    if at == |rest| then None else Some(Ref(provider, rest[..at], rest[at + 1..]))
  }

  function GoParse(ref: seq<Byte>): Option<Ref> {
    var slash := Find(ref, SLASH);
    if slash == |ref| || slash == 0 || Find(ref, AT) < slash then None
    else
      match CutTwice(ref)
      case None => None
      case Some(Ref(provider, api, encoded)) =>
        if api == [] || encoded == [] || !Plain(api) || !Plain(provider) || !Canonical(encoded) then None
        else Some(Ref(provider, api, Decode(encoded)))
  }

  datatype PythonResult = Parsed(ref: Ref) | Rejected(code: string)

  /** An error code, or none. */
  function CheckSegment(value: seq<Byte>, missing: string, invalid: string): Option<string> {
    if value == [] then Some(missing)
    else if Has(value, SLASH) || Has(value, AT) || Has(value, PERCENT) then Some(invalid)
    else None
  }

  function CheckEncoded(encoded: seq<Byte>): Option<string> {
    if encoded == [] then None
    else if encoded[0] == PERCENT then
      if Escape(encoded) then CheckEncoded(encoded[3..]) else Some("invalid_percent_escape")
    else if !IsUnreserved(encoded[0]) then Some("invalid_model_id_encoding")
    else CheckEncoded(encoded[1..])
  }

  /** The Python check, index by index. */
  method ValidateEncodedModelId(encoded: seq<Byte>) returns (code: Option<string>)
    ensures code == CheckEncoded(encoded)
  {
    var index := 0;
    assert encoded[0..] == encoded;
    while index < |encoded|
      invariant 0 <= index <= |encoded|
      invariant CheckEncoded(encoded) == CheckEncoded(encoded[index..])
    {
      ghost var rest := encoded[index..];
      assert rest[1..] == encoded[index + 1..];
      if encoded[index] == PERCENT {
        if index + 2 >= |encoded| || !IsHexDigit(encoded[index + 1]) || !IsHexDigit(encoded[index + 2]) {
          return Some("invalid_percent_escape");
        }
        assert Escape(rest) && rest[3..] == encoded[index + 3..];
        index := index + 3;
        continue;
      }
      if !IsUnreserved(encoded[index]) {
        return Some("invalid_model_id_encoding");
      }
      index := index + 1;
    }
    return None;
  }

  function PythonParse(ref: seq<Byte>): PythonResult {
    var slash := Find(ref, SLASH);
    if slash == |ref| then Rejected("missing_separators")
    else if slash == 0 then Rejected("missing_provider_id")
    else if Find(ref, AT) < slash then Rejected("ambiguous_separators")
    else
      match CutTwice(ref)
      case None => Rejected("missing_separators")
      case Some(Ref(provider, api, encoded)) =>
        if Has(api, SLASH) then Rejected("ambiguous_separators")
        else if Has(encoded, AT) || Has(encoded, SLASH) then Rejected("ambiguous_separators")
        else if CheckSegment(provider, "missing_provider_id", "invalid_provider_id").Some? then
          Rejected(CheckSegment(provider, "missing_provider_id", "invalid_provider_id").value)
        else if CheckSegment(api, "missing_api", "invalid_api").Some? then
          Rejected(CheckSegment(api, "missing_api", "invalid_api").value)
        else if encoded == [] then Rejected("missing_model_id")
        else if CheckEncoded(encoded).Some? then Rejected(CheckEncoded(encoded).value)
        else if !ValidUtf8(Decode(encoded)) then Rejected("invalid_utf8_model_id")
        else Parsed(Ref(provider, api, Decode(encoded)))
  }

  function NonEmptyParts(cut: Option<Ref>): Option<Ref> {
    if cut.Some? && cut.value.provider != [] && cut.value.api != [] then cut else None
  }

  /** Go's fallback for references that are not canonical; the model id stays encoded. */
  function GoSplit(ref: seq<Byte>): Option<Ref> {
    var slash, at := Find(ref, SLASH), Find(ref, AT);
    if slash == |ref| || at == |ref| || slash >= at then None
    else NonEmptyParts(Some(Ref(ref[..slash], ref[slash + 1..at], ref[at + 1..])))
  }

  function RustSplit(ref: seq<Byte>): Option<Ref> {
    if Find(ref, SLASH) == 0 then None else NonEmptyParts(CutTwice(ref))
  }

  // ---------- what the strict parsers accept

  /** The canonical spelling of a provider, an api and an encoded id. */
  function Spelled(provider: seq<Byte>, api: seq<Byte>, encoded: seq<Byte>): seq<Byte> {
    provider + [SLASH] + api + [AT] + encoded
  }

  function Format(r: Ref): seq<Byte> {
    Spelled(r.provider, r.api, Encode(r.model))
  }

  lemma FindAt(s: seq<Byte>, b: Byte, k: nat)
    requires k <= |s| && (forall i :: 0 <= i < k ==> s[i] != b) && (k < |s| ==> s[k] == b)
    ensures Find(s, b) == k
  {
  }

  /** `head` has no `b`, so the first one is the one after it. */
  lemma FindAfter(head: seq<Byte>, b: Byte, tail: seq<Byte>)
    requires !Has(head, b)
    ensures var s := head + [b] + tail;
            Find(s, b) == |head| && s[..|head|] == head && s[|head| + 1..] == tail
  {
    var s := head + [b] + tail;
    assert forall i :: 0 <= i < |head| ==> s[i] == head[i];
    FindAt(s, b, |head|);
  }

  lemma Rejoin(s: seq<Byte>, b: Byte)
    requires Has(s, b)
    ensures s == s[..Find(s, b)] + [b] + s[Find(s, b) + 1..]
  {
  }

  /** A spelling is cut after the provider and after the api, whichever way one looks. */
  lemma Cuts(provider: seq<Byte>, api: seq<Byte>, encoded: seq<Byte>)
    requires !Has(provider, SLASH) && !Has(provider, AT) && !Has(api, AT)
    ensures
      var ref := Spelled(provider, api, encoded);
      Find(ref, SLASH) == |provider| && Find(ref, AT) == |provider| + 1 + |api|
      && CutTwice(ref) == Some(Ref(provider, api, encoded))
  {
    var ref, rest := Spelled(provider, api, encoded), api + [AT] + encoded;
    assert ref == provider + [SLASH] + rest;
    FindAfter(provider, SLASH, rest);
    FindAfter(api, AT, encoded);
    CutAt(provider, rest, |api|);
    NoAtBefore(provider, api);
    FindAfter(provider + [SLASH] + api, AT, encoded);
  }

  lemma NoAtBefore(provider: seq<Byte>, api: seq<Byte>)
    requires !Has(provider, AT) && !Has(api, AT)
    ensures !Has(provider + [SLASH] + api, AT)
  {
    var head := provider + [SLASH] + api;
    assert forall i :: 0 <= i < |head| ==>
        head[i] == if i < |provider| then provider[i] else if i == |provider| then SLASH else api[i - |provider| - 1];
    FindAt(head, AT, |head|);
  }

  /** A canonical spelling of `r`, with this encoding of the model id. */
  predicate Spells(ref: seq<Byte>, r: Ref, encoded: seq<Byte>) {
    ref == Spelled(r.provider, r.api, encoded) && Plain(r.provider) && Plain(r.api)
    && encoded != [] && Canonical(encoded) && Decode(encoded) == r.model
  }

  lemma SpellingIsParsed(ref: seq<Byte>, r: Ref, encoded: seq<Byte>)
    requires Spells(ref, r, encoded)
    ensures GoParse(ref) == Some(r) && RustSplit(ref) == Some(r.(model := encoded))
    ensures Find(ref, SLASH) < Find(ref, AT)
  {
    Cuts(r.provider, r.api, encoded);
  }

  lemma ParsedIsSpelling(ref: seq<Byte>, r: Ref) returns (encoded: seq<Byte>)
    requires GoParse(ref) == Some(r)
    ensures Spells(ref, r, encoded)
  {
    encoded := CutTwice(ref).value.model;
    Rejoined(ref);
  }

  lemma Rejoined(ref: seq<Byte>)
    ensures CutTwice(ref).Some? ==> ref == Spelled(CutTwice(ref).value.provider, CutTwice(ref).value.api, CutTwice(ref).value.model)
  {
    if CutTwice(ref).Some? {
      Rejoin(ref, SLASH);
      Rejoin(ref[Find(ref, SLASH) + 1..], AT);
    }
  }

  /** The strict parser accepts exactly the canonical spellings, and reads them right. */
  lemma GoParseIff(ref: seq<Byte>, r: Ref)
    ensures GoParse(ref) == Some(r) <==> exists encoded :: Spells(ref, r, encoded)
  {
    if GoParse(ref) == Some(r) {
      var encoded := ParsedIsSpelling(ref, r);
    }
    if encoded :| Spells(ref, r, encoded) {
      SpellingIsParsed(ref, r, encoded);
    }
  }

  /** Parsing inverts formatting. */
  lemma ParseFormat(r: Ref)
    requires Plain(r.provider) && Plain(r.api) && r.model != []
    ensures GoParse(Format(r)) == Some(r)
    ensures ValidUtf8(r.model) ==> PythonParse(Format(r)) == Parsed(r)
  {
    DecodeEncode(r.model);
    assert Encode(r.model) != [];
    SpellingIsParsed(Format(r), r, Encode(r.model));
    PythonAcceptsIff(Format(r));
  }

  lemma {:induction false} CheckEncodedIff(encoded: seq<Byte>)
    ensures CheckEncoded(encoded) == None <==> Canonical(encoded)
  {
    if encoded != [] {
      if Escape(encoded) {
        CheckEncodedIff(encoded[3..]);
      } else {
        CheckEncodedIff(encoded[1..]);
      }
    }
  }

  /** Python accepts what Go accepts, if the model id is text, and reads the same. */
  lemma PythonAcceptsIff(ref: seq<Byte>)
    ensures PythonParse(ref).Parsed? <==> GoParse(ref).Some? && ValidUtf8(GoParse(ref).value.model)
    ensures PythonParse(ref).Parsed? ==> PythonParse(ref).ref == GoParse(ref).value
  {
    if CutTwice(ref).Some? {
      var encoded := CutTwice(ref).value.model;
      CheckEncodedIff(encoded);
      if Canonical(encoded) {
        CanonicalHasNoSeparator(encoded);
      }
    }
  }

  /** Whatever the strict parser accepts, the two splitters cut at the same places, and the
      Rust decoder gives the same id if that is text, else the id as it is encoded. */
  lemma SplittersAgree(ref: seq<Byte>)
    requires GoParse(ref).Some?
    ensures
      var r := GoParse(ref).value;
      GoSplit(ref).Some? && GoSplit(ref) == RustSplit(ref) &&
      var split := GoSplit(ref).value;
      split.provider == r.provider && split.api == r.api && Decode(split.model) == r.model
      && RustDecode(split.model) == (if ValidUtf8(r.model) then r.model else split.model)
      && ref == Spelled(r.provider, r.api, split.model)
  {
    var r := GoParse(ref).value;
    var encoded := ParsedIsSpelling(ref, r);
    SpellingIsParsed(ref, r, encoded);
    CanonicalDecodesAlike(encoded);
    LooseSplittersIff(ref);
  }

  /** On any reference: Go's fallback gives what Rust gives, unless an '@' comes before the
      first '/'. */
  lemma LooseSplittersIff(ref: seq<Byte>)
    ensures GoSplit(ref) == RustSplit(ref) <==> RustSplit(ref) == None || Find(ref, AT) > Find(ref, SLASH)
    ensures GoSplit(ref).Some? ==> GoSplit(ref) == RustSplit(ref)
  {
    if Find(ref, SLASH) < Find(ref, AT) {
      SlashFirst(ref);
    }
  }

  lemma SlashFirst(ref: seq<Byte>)
    requires Find(ref, SLASH) < Find(ref, AT)
    ensures GoSplit(ref) == RustSplit(ref)
  {
    AtAfterSlash(ref, Find(ref, SLASH), Find(ref, AT));
    assert Find(ref, AT) < |ref| ==> GoSplit(ref) == NonEmptyParts(CutTwice(ref));
    NoProvider(ref);
  }

  lemma NoProvider(ref: seq<Byte>)
    ensures RustSplit(ref) == NonEmptyParts(CutTwice(ref))
  {
    if Find(ref, SLASH) == 0 && CutTwice(ref).Some? {
      assert CutTwice(ref).value.provider == ref[..0] == [];
    }
  }

  /** With no '@' before the first '/', the first '@' is the first after it. */
  lemma AtAfterSlash(ref: seq<Byte>, slash: nat, at: nat)
    requires slash == Find(ref, SLASH) < at == Find(ref, AT)
    ensures if at == |ref| then CutTwice(ref) == None
            else CutTwice(ref) == Some(Ref(ref[..slash], ref[slash + 1..at], ref[at + 1..]))
  {
    FindLater(ref, AT, slash + 1);
    Slices(ref, slash + 1, at);
    if slash < |ref| {
      CutAt(ref[..slash], ref[slash + 1..], at - slash - 1);
    }
  }

  lemma CutAt(provider: seq<Byte>, rest: seq<Byte>, k: nat)
    requires k == Find(rest, AT)
    ensures CutRest(provider, rest) == if k == |rest| then None else Some(Ref(provider, rest[..k], rest[k + 1..]))
  {
  }

  lemma FindLater(s: seq<Byte>, b: Byte, from: nat)
    requires from <= Find(s, b)
    ensures Find(s[from..], b) == Find(s, b) - from
  {
    FindAt(s[from..], b, Find(s, b) - from);
  }

  lemma Slices(s: seq<Byte>, i: nat, j: nat)
    requires i <= j <= |s|
    ensures s[i..][..j - i] == s[i..j] && (j < |s| ==> s[i..][j - i + 1..] == s[j + 1..])
  {
  }
}

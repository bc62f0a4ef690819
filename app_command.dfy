/** Model of `format_app_command`: a display call made in a subprocess is
    serialised and written to stdout as one line, the literal `__HATCH__:`
    followed by two lower-case hexadecimal digits per byte of the serialised
    call (base16 as in section 8 of RFC 4648, with the lower-case alphabet).

    The serialiser (`pickle.dumps` with protocol 4) is foreign to this model and
    stands here as an arbitrary function from a call to bytes. `DecodeLine` is a
    reference decoder, the inverse the consumer of these lines relies on. */
module AppCommand {
  import opened Py
  import opened Text

  newtype byte = x: int | 0 <= x < 256

  /** The marker a consumer looks for, and the line prefix built from it. */
  const TAG: string := "__HATCH__"
  const PREFIX: string := "__HATCH__:"

  /** The alphabet of `'%02x'`. */
  predicate IsLowerHex(c: char) {
    '0' <= c <= '9' || 'a' <= c <= 'f'
  }

  function HexValue(c: char): (r: Option<int>)
    ensures r.Some? <==> IsLowerHex(c)
    ensures r.Some? ==> 0 <= r.value < 16
  {
    if '0' <= c <= '9' then Some(c as int - '0' as int)
    else if 'a' <= c <= 'f' then Some(c as int - 'a' as int + 10)
    else None
  }

  function HexDigit(n: int): (c: char)
    requires 0 <= n < 16
    ensures IsLowerHex(c)
    ensures HexValue(c) == Some(n)
  {
    if n < 10 then ('0' as int + n) as char else ('a' as int + n - 10) as char
  }

  /** `'%02x' % b` */
  function ByteHex(b: byte): string {
    [HexDigit(b as int / 16), HexDigit(b as int % 16)]
  }

  /** `''.join('%02x' % i for i in bytes)` */
  function Hex(bytes: seq<byte>): (s: string)
    ensures |s| == 2 * |bytes|
    ensures forall i :: 0 <= i < |s| ==> IsLowerHex(s[i])
  {
    if bytes == [] then "" else ByteHex(bytes[0]) + Hex(bytes[1..])
  }

  /** Reads pairs of lower-case hex digits back into bytes. */
  function Unhex(s: string): Option<seq<byte>>
    decreases |s|
  {
    if s == [] then Some([])
    else if |s| == 1 then None
    else
      var hi := HexValue(s[0]);
      var lo := HexValue(s[1]);
      if hi.None? || lo.None? then None
      else
        match Unhex(s[2..])
        case None => None
        case Some(rest) => Some([(hi.value * 16 + lo.value) as byte] + rest)
  }

  /** Hex-decoding the hex text of some bytes gives those bytes back. */
  lemma {:induction false} UnhexHex(bytes: seq<byte>)
    ensures Unhex(Hex(bytes)) == Some(bytes)
  {
    if bytes != [] {
      var b := bytes[0];
      var s := Hex(bytes);
      assert s == ByteHex(b) + Hex(bytes[1..]);
      assert s[2..] == Hex(bytes[1..]);
      UnhexHex(bytes[1..]);
      assert (b as int / 16) * 16 + b as int % 16 == b as int;
      assert [b] + bytes[1..] == bytes;
    }
  }

  /** The line written for a serialised call. */
  function EncodeLine(payload: seq<byte>): (line: string)
    ensures |line| == |PREFIX| + 2 * |payload|
    ensures StartsWith(line, PREFIX)
    ensures forall i :: |PREFIX| <= i < |line| ==> IsLowerHex(line[i])
    ensures '\n' !in line
  {
    var line := PREFIX + Hex(payload);
    assert line[..|PREFIX|] == PREFIX;
    assert forall i :: |PREFIX| <= i < |line| ==> line[i] == Hex(payload)[i - |PREFIX|];
    line
  }

  /** Index of the first occurrence of `c` in `s`. */
  function FirstIndex(s: string, c: char): (r: Option<nat>)
    ensures r.Some? ==> r.value < |s| && s[r.value] == c && c !in s[..r.value]
    ensures r.None? ==> c !in s
  {
    if s == [] then None
    else if s[0] == c then Some(0)
    else
      match FirstIndex(s[1..], c)
      case None => None
      case Some(i) =>
        assert s[..i + 1] == [s[0]] + s[1..][..i];
        Some(i + 1)
  }

  lemma {:induction false} FirstIndexAfter(a: string, c: char, b: string)
    requires c !in a
    ensures FirstIndex(a + [c] + b, c) == Some(|a|)
  {
    if a != [] {
      FirstIndexAfter(a[1..], c, b);
      assert (a + [c] + b)[1..] == a[1..] + [c] + b;
    }
  }

  /** The consumer's reading of a line: split on the first `:`, check the tag,
      hex-decode the rest. */
  function DecodeLine(line: string): Option<seq<byte>> {
    match FirstIndex(line, ':')
    case None => None
    case Some(i) => if line[..i] == TAG then Unhex(line[i + 1..]) else None
  }

  /** Every encoded line decodes to exactly the bytes it was made from. */
  lemma DecodeEncode(payload: seq<byte>)
    ensures DecodeLine(EncodeLine(payload)) == Some(payload)
  {
    var line := EncodeLine(payload);
    assert line == TAG + [':'] + Hex(payload);
    FirstIndexAfter(TAG, ':', Hex(payload));
    assert line[|TAG| + 1..] == Hex(payload);
    assert line[..|TAG|] == TAG;
    UnhexHex(payload);
  }

  /** Distinct payloads give distinct lines. */
  lemma EncodeLineInjective(p: seq<byte>, q: seq<byte>)
    ensures EncodeLine(p) == EncodeLine(q) ==> p == q
  {
    DecodeEncode(p);
    DecodeEncode(q);
  }

  /** A display call: method name, positional arguments, keyword arguments. */
  datatype Token = Token(name: string, args: seq<PyValue>, kwargs: map<string, PyValue>)

  /** The serialiser: `pickle.dumps(token, 4)`. */
  type Pickler = Token -> seq<byte>

  /** `format_app_command(method, *args, **kwargs)` */
  function FormatAppCommand(pickle: Pickler, name: string, args: seq<PyValue>, kwargs: map<string, PyValue>): (line: string)
    ensures |line| == |PREFIX| + 2 * |pickle(Token(name, args, kwargs))|
    ensures StartsWith(line, PREFIX) && '\n' !in line
    ensures DecodeLine(line) == Some(pickle(Token(name, args, kwargs)))
  {
    var payload := pickle(Token(name, args, kwargs));
    DecodeEncode(payload);
    EncodeLine(payload)
  }
}

/** URL building blocks used by the login route: `encodeURIComponent`
    (the ECMAScript global function of that name) and the
    `name=value&name=value` query syntax of RFC 3986, section 3.4, with the
    split an authorization server applies to read the parameters back. */
module Uri {

  /** The characters `encodeURIComponent` leaves as they are. */
  predicate Unescaped(c: char) {
    || ('A' <= c <= 'Z') || ('a' <= c <= 'z') || ('0' <= c <= '9')
    || c == '-' || c == '_' || c == '.' || c == '!' || c == '~'
    || c == '*' || c == '\'' || c == '(' || c == ')'
  }

  /** A character that may appear in the output of `encodeURIComponent`. */
  predicate Encoded(c: char) {
    Unescaped(c) || c == '%'
  }

  function HexDigit(n: nat): (c: char)
    requires n < 16
    ensures Unescaped(c)
  {
    "0123456789ABCDEF"[n]
  }

  /** The UTF-8 encoding of one Unicode scalar value. */
  function Utf8(c: char): (bytes: seq<nat>)
    ensures 1 <= |bytes| <= 4
    ensures forall i :: 0 <= i < |bytes| ==> bytes[i] < 256
    ensures c as int < 0x80 <==> |bytes| == 1
  {
    var n := c as int;
    if n < 0x80 then [n]
    else if n < 0x800 then [0xC0 + n / 0x40, 0x80 + n % 0x40]
    else if n < 0x10000 then [0xE0 + n / 0x1000, 0x80 + (n / 0x40) % 0x40, 0x80 + n % 0x40]
    else [0xF0 + n / 0x40000, 0x80 + (n / 0x1000) % 0x40, 0x80 + (n / 0x40) % 0x40, 0x80 + n % 0x40]
  }

  /** `%XX` for each byte, with upper-case hexadecimal digits. */
  function PercentBytes(bytes: seq<nat>): (r: string)
    requires forall i :: 0 <= i < |bytes| ==> bytes[i] < 256
    ensures |r| == 3 * |bytes|
    ensures forall i :: 0 <= i < |r| ==> Encoded(r[i])
  {
    if bytes == [] then ""
    else ['%', HexDigit(bytes[0] / 16), HexDigit(bytes[0] % 16)] + PercentBytes(bytes[1..])
  }

  function EncodeChar(c: char): (r: string)
    ensures |r| >= 1
    ensures forall i :: 0 <= i < |r| ==> Encoded(r[i])
    ensures Unescaped(c) <==> r == [c]
  {
    if Unescaped(c) then [c] else PercentBytes(Utf8(c))
  }

  /** `encodeURIComponent(s)`: every character outside the unescaped set is
      replaced by the percent-escapes of its UTF-8 bytes. */
  function EncodeUriComponent(s: string): (r: string)
    ensures |r| >= |s|
    ensures forall i :: 0 <= i < |r| ==> Encoded(r[i])
  {
    if s == [] then ""
    else EncodeChar(s[0]) + EncodeUriComponent(s[1..])
  }

  /** A string made only of unescaped characters (a hex `state`, a
      base64url challenge) is sent as it is. */
  lemma {:induction false} EncodeUnescaped(s: string)
    requires forall i :: 0 <= i < |s| ==> Unescaped(s[i])
    ensures EncodeUriComponent(s) == s
  {
    if s != [] {
      EncodeUnescaped(s[1..]);
      assert s == [s[0]] + s[1..];
    }
  }

  /** An encoded value never contains a query-string separator. */
  lemma EncodedHasNoSeparator(s: string)
    ensures '&' !in EncodeUriComponent(s) && '=' !in EncodeUriComponent(s)
  {
    var r := EncodeUriComponent(s);
    forall i | 0 <= i < |r| ensures r[i] != '&' && r[i] != '=' {
      assert Encoded(r[i]);
    }
  }

  /** The index of the first `c` in `s`, or `|s|` when there is none. */
  function FirstIndex(s: string, c: char): (i: nat)
    ensures i <= |s|
    ensures i < |s| ==> s[i] == c
    ensures forall j :: 0 <= j < i ==> s[j] != c
    ensures i == |s| <==> c !in s
  {
    if s == [] then 0
    else if s[0] == c then 0
    else 1 + FirstIndex(s[1..], c)
  }

  /** `parts.join(sep)`. */
  function Join(parts: seq<string>, sep: char): string
    requires |parts| > 0
  {
    if |parts| == 1 then parts[0] else parts[0] + [sep] + Join(parts[1..], sep)
  }

  /** `s.split(sep)`. */
  function Split(s: string, sep: char): (parts: seq<string>)
    ensures |parts| > 0
    decreases |s|
  {
    var i := FirstIndex(s, sep);
    if i == |s| then [s] else [s[..i]] + Split(s[i + 1..], sep)
  }

  /** Splitting after a separator-free first part peels that part off. */
  lemma SplitFirst(first: string, sep: char, rest: string)
    requires sep !in first
    ensures Split(first + [sep] + rest, sep) == [first] + Split(rest, sep)
  {
    var s := first + [sep] + rest;
    assert s[|first|] == sep;
    forall j | 0 <= j < |first| ensures s[j] != sep {
      assert s[j] == first[j];
    }
    assert FirstIndex(s, sep) == |first|;
    assert s[..|first|] == first;
    assert s[|first| + 1..] == rest;
  }

  /** Splitting a joined list of separator-free parts gives the parts back. */
  lemma {:induction false} SplitJoin(parts: seq<string>, sep: char)
    requires |parts| > 0
    requires forall p :: p in parts ==> sep !in p
    ensures Split(Join(parts, sep), sep) == parts
  {
    assert parts[0] in parts;
    if |parts| == 1 {
      assert Join(parts, sep) == parts[0];
    } else {
      forall p | p in parts[1..] ensures sep !in p {
        assert p in parts;
      }
      SplitJoin(parts[1..], sep);
      SplitFirst(parts[0], sep, Join(parts[1..], sep));
      assert parts == [parts[0]] + parts[1..];
    }
  }

  /** One `name=value` pair of a query string. */
  datatype Param = Param(name: string, value: string)

  function Field(p: Param): string {
    p.name + "=" + p.value
  }

  function Fields(ps: seq<Param>): (fs: seq<string>)
    ensures |fs| == |ps|
    ensures forall i :: 0 <= i < |ps| ==> fs[i] == Field(ps[i])
  {
    if ps == [] then [] else [Field(ps[0])] + Fields(ps[1..])
  }

  /** The `name=value&...` text of a non-empty parameter list. */
  function QueryString(ps: seq<Param>): string
    requires |ps| > 0
  {
    Join(Fields(ps), '&')
  }

  lemma QueryStringCons(p: Param, ps: seq<Param>)
    requires |ps| > 0
    ensures QueryString([p] + ps) == Field(p) + "&" + QueryString(ps)
  {
    var all := [p] + ps;
    assert Fields(all) == [Field(p)] + Fields(ps);
    assert Fields(all)[1..] == Fields(ps);
  }

  lemma QueryStringTail(ps: seq<Param>)
    requires |ps| > 1
    ensures QueryString(ps) == Field(ps[0]) + "&" + QueryString(ps[1..])
  {
    QueryStringCons(ps[0], ps[1..]);
    assert ps == [ps[0]] + ps[1..];
  }

  /** Reads one field: the name runs up to the first `=`, the value is the
      rest; a field without `=` has an empty value. */
  function ParseField(f: string): Param {
    var i := FirstIndex(f, '=');
    if i == |f| then Param(f, "") else Param(f[..i], f[i + 1..])
  }

  function ParseFields(fs: seq<string>): (ps: seq<Param>)
    ensures |ps| == |fs|
    ensures forall i :: 0 <= i < |fs| ==> ps[i] == ParseField(fs[i])
  {
    if fs == [] then [] else [ParseField(fs[0])] + ParseFields(fs[1..])
  }

  /** The parameters of a query string, in order. */
  function ParseQuery(q: string): seq<Param> {
    ParseFields(Split(q, '&'))
  }

  /** A parameter whose name holds neither separator and whose value holds
      no `&` survives being written into a query string and read back. */
  predicate WellFormedParam(p: Param) {
    '&' !in p.name && '=' !in p.name && '&' !in p.value
  }

  lemma ParseFieldOfField(p: Param)
    requires WellFormedParam(p)
    ensures ParseField(Field(p)) == p
  {
    var f := Field(p);
    var i := FirstIndex(f, '=');
    assert f[|p.name|] == '=';
    forall j | 0 <= j < |p.name| ensures f[j] != '=' {
      assert f[j] == p.name[j];
    }
    assert i == |p.name|;
    assert f[..i] == p.name;
    assert f[i + 1..] == p.value;
  }

  lemma {:induction false} ParseQueryString(ps: seq<Param>)
    requires |ps| > 0
    requires forall i :: 0 <= i < |ps| ==> WellFormedParam(ps[i])
    ensures ParseQuery(QueryString(ps)) == ps
  {
    var fs := Fields(ps);
    forall i | 0 <= i < |fs| ensures '&' !in fs[i] {
      var name, value := ps[i].name, ps[i].value;
      assert fs[i] == name + "=" + value;
      forall j | 0 <= j < |fs[i]| ensures fs[i][j] != '&' {
        if j < |name| {
          assert fs[i][j] == name[j];
        } else if j > |name| {
          assert fs[i][j] == value[j - |name| - 1];
        }
      }
    }
    SplitJoin(fs, '&');
    var parsed := ParseFields(fs);
    forall i | 0 <= i < |ps| ensures parsed[i] == ps[i] {
      ParseFieldOfField(ps[i]);
    }
  }
}

/** The runtime configuration a permit vouches for: its validation, and the canonical text whose digest is signed. */
module RuntimeConfig {
  import opened Prelude
  import Text

  // ---- validation -----------------------------------------------------------------------------

  /** A JavaScript value as it comes back from the database client. */
  datatype Js =
    | Undefined | Null | Bool(b: bool) | Number(n: Num) | Str(s: string)
    | Array(items: seq<Js>) | Object(fields: map<string, Js>)
  datatype Num = Finite(value: real) | NotFinite

  const MAX_SAFE_INTEGER := 9007199254740991

  predicate IsInteger(n: Num) { n.Finite? && n.value.Floor as real == n.value }

  predicate IsSafeInteger(n: Num) { IsInteger(n) && -MAX_SAFE_INTEGER <= n.value.Floor <= MAX_SAFE_INTEGER }

  function Get(fields: map<string, Js>, name: string): Js { if name in fields then fields[name] else Undefined }

  /** Space to tilde, between one and `limit` characters. */
  predicate PrintableAscii(s: string, limit: nat) {
    1 <= |s| <= limit && forall k :: 0 <= k < |s| ==> ' ' <= s[k] <= '~'
  }

  lemma PrintableMeans(s: string, limit: nat)
    ensures PrintableAscii(s, limit) <==>
      s != "" && |s| <= limit && forall k :: 0 <= k < |s| ==> 0x20 <= s[k] as int <= 0x7E
  {}

  datatype Config = Config(version: int, endpointId: string, host: string, port: int, cipher: string,
      credential: string)

  function Parse(value: Js): Option<Config> {
    if !value.Object? then None
    else
      var version, endpointId := Get(value.fields, "config_version"), Get(value.fields, "endpoint_id");
      var host, port := Get(value.fields, "host"), Get(value.fields, "port");
      var protocol, cipher := Get(value.fields, "protocol"), Get(value.fields, "cipher");
      var credential := Get(value.fields, "credential");
      if !(version.Number? && IsSafeInteger(version.n)) || version.n.value <= 0.0 then None
      else if !endpointId.Str? || !PrintableAscii(endpointId.s, 64) then None
      else if !host.Str? || !PrintableAscii(host.s, 253) then None
      else if !(port.Number? && IsInteger(port.n)) || port.n.value < 1.0 || port.n.value > 65535.0 then None
      else if protocol != Str("shadowsocks") then None
      else if !cipher.Str? || !PrintableAscii(cipher.s, 64) then None
      else if !credential.Str? || !PrintableAscii(credential.s, 256) then None
      else Some(Config(version.n.value.Floor, endpointId.s, host.s, port.n.value.Floor, cipher.s, credential.s))
  }

  predicate Valid(c: Config) {
    && 1 <= c.version <= MAX_SAFE_INTEGER
    && PrintableAscii(c.endpointId, 64) && PrintableAscii(c.host, 253)
    && 1 <= c.port <= 65535
    && PrintableAscii(c.cipher, 64) && PrintableAscii(c.credential, 256)
  }

  /** The record that says exactly what `c` says. */
  function Record(c: Config): map<string, Js> {
    map["config_version" := Number(Finite(c.version as real)), "endpoint_id" := Str(c.endpointId),
      "host" := Str(c.host),
        "port" := Number(Finite(c.port as real)), "protocol" := Str("shadowsocks"), "cipher" := Str(c.cipher),
        "credential" := Str(c.credential)]
  }

  /** The fields say what the record of `c` says, whatever else they carry. */
  ghost predicate Carries(fields: map<string, Js>, c: Config) {
    forall name :: name in Record(c) ==> Get(fields, name) == Record(c)[name]
  }

  lemma AcceptedCarries(value: Js, c: Config)
    requires Parse(value) == Some(c)
    ensures Valid(c) && value.Object? && Carries(value.fields, c)
  {
    hide PrintableAscii;
  }

  lemma CarriedIsAccepted(value: Js, c: Config)
    requires Valid(c) && value.Object? && Carries(value.fields, c)
    ensures Parse(value) == Some(c)
  {
    hide PrintableAscii;
    var r := Record(c);
    assert Get(value.fields, "config_version") == r["config_version"];
    assert Get(value.fields, "endpoint_id") == r["endpoint_id"];
    assert Get(value.fields, "host") == r["host"];
    assert Get(value.fields, "port") == r["port"];
    assert Get(value.fields, "protocol") == r["protocol"];
    assert Get(value.fields, "cipher") == r["cipher"];
    assert Get(value.fields, "credential") == r["credential"];
  }

  /** Exactly the records of valid configurations are accepted, whatever else they carry. */
  lemma ParseMeans(value: Js, c: Config)
    ensures Parse(value) == Some(c) <==> Valid(c) && value.Object? && Carries(value.fields, c)
  {
    hide Parse, Valid, Carries;
    if Parse(value) == Some(c) { AcceptedCarries(value, c); }
    if Valid(c) && value.Object? && Carries(value.fields, c) { CarriedIsAccepted(value, c); }
  }

  // ---- the canonical text ---------------------------------------------------------------------

  /** A safe integer the way a template string prints it. */
  function Numeral(n: int): string { if n < 0 then "-" + Text.Print(-n) else Text.Print(n) }

  function Line(key: string, value: string): string { key + "=" + value + "\n" }

  function Lines(keys: seq<string>, values: seq<string>): string
    requires |keys| == |values|
  {
    if keys == [] then "" else Line(keys[0], values[0]) + Lines(keys[1..], values[1..])
  }

  const KEYS := ["schema_version", "config_version", "endpoint_id", "host", "port", "protocol", "cipher", "credential",
                 "issued_at", "expires_at"]

  function Values(c: Config, issuedAt: int, expiresAt: int): seq<string> {
    ["1", Numeral(c.version), c.endpointId, c.host, Numeral(c.port), "shadowsocks", c.cipher, c.credential,
     Numeral(issuedAt), Numeral(expiresAt)]
  }

  function Canonical(c: Config, issuedAt: int, expiresAt: int): string {
    Lines(KEYS, Values(c, issuedAt, expiresAt))
  }

  /** The text itself. */
  lemma CanonicalText(c: Config, issuedAt: int, expiresAt: int)
    ensures Canonical(c, issuedAt, expiresAt) ==
      "schema_version=1\n" +
      ("config_version=" + Numeral(c.version) + "\n" +
      ("endpoint_id=" + c.endpointId + "\n" +
      ("host=" + c.host + "\n" +
      ("port=" + Numeral(c.port) + "\n" +
      ("protocol=shadowsocks\n" +
      ("cipher=" + c.cipher + "\n" +
      ("credential=" + c.credential + "\n" +
      ("issued_at=" + Numeral(issuedAt) + "\n" +
      ("expires_at=" + Numeral(expiresAt) + "\n")))))))))
  {
    var v := Values(c, issuedAt, expiresAt);
    FourLines(KEYS, v);
    FourLines(KEYS[4..], v[4..]);
    TwoLinesLeft(KEYS[8..], v[8..]);
    assert KEYS[4..][4..] == KEYS[8..] && v[4..][4..] == v[8..];
    assert "schema_version" + "=" + "1" + "\n" == "schema_version=1\n";
    assert "protocol" + "=" + "shadowsocks" + "\n" == "protocol=shadowsocks\n";
    assert "config_version" + "=" == "config_version=" && "endpoint_id" + "=" == "endpoint_id=";
    assert "host" + "=" == "host=" && "port" + "=" == "port=" && "cipher" + "=" == "cipher=";
    assert "credential" + "=" == "credential=" && "issued_at" + "=" == "issued_at=";
    assert "expires_at" + "=" == "expires_at=";
  }

  lemma TwoLinesLeft(keys: seq<string>, values: seq<string>)
    requires |keys| == |values| == 2
    ensures Lines(keys, values) == Line(keys[0], values[0]) + Line(keys[1], values[1])
  {
    hide Line;
    assert Lines(keys[1..], values[1..]) == Line(keys[1], values[1]) + Lines(keys[1..][1..], values[1..][1..]);
    assert Line(keys[1], values[1]) + "" == Line(keys[1], values[1]);
  }

  // ---- and back -------------------------------------------------------------------------------

  /** The text before the first line feed, and what follows it. */
  function FirstLine(s: string): Option<(string, string)> {
    if s == "" then None
    else if s[0] == '\n' then Some(("", s[1..]))
    else
      var rest := FirstLine(s[1..]);
      if rest.None? then None else Some(([s[0]] + rest.value.0, rest.value.1))
  }

  function TakeField(s: string, key: string): Option<(string, string)> {
    if key + "=" <= s then FirstLine(s[|key| + 1..]) else None
  }

  function ReadNumeral(s: string): Option<int> {
    if s != "" && s[0] == '-' && Text.IsNumeral(s[1..]) then Some(0 - Text.Read(s[1..]))
    else if Text.IsNumeral(s) then Some(Text.Read(s))
    else None
  }

  /** The values of the named lines, in order, if the text consists of exactly these lines. */
  function Fields(s: string, keys: seq<string>): Option<seq<string>>
    decreases |keys|
  {
    if keys == [] then if s == "" then Some([]) else None
    else
      var field := TakeField(s, keys[0]);
      if field.None? then None
      else
        var others := Fields(field.value.1, keys[1..]);
        if others.None? then None else Some([field.value.0] + others.value)
  }

  /** What a canonical text was printed from. */
  function ReadCanonical(text: string): Option<(Config, int, int)> {
    var fields := Fields(text, KEYS);
    if fields.None? || |fields.value| != 10 then None
    else
      var f := fields.value;
      var version, port, issued, expires := ReadNumeral(f[1]), ReadNumeral(f[4]), ReadNumeral(f[8]), ReadNumeral(f[9]);
      if version.None? || port.None? || issued.None? || expires.None? then None
      else Some((Config(version.value, f[2], f[3], port.value, f[6], f[7]), issued.value, expires.value))
  }

  predicate OneLine(s: string) { forall k :: 0 <= k < |s| ==> s[k] != '\n' }

  lemma {:induction false} FirstLineIsRead(line: string, rest: string)
    requires OneLine(line)
    ensures FirstLine(line + "\n" + rest) == Some((line, rest))
  {
    var s := line + "\n" + rest;
    if line == "" {
      assert s[1..] == rest;
    } else {
      assert s[0] == line[0] && s[1..] == line[1..] + "\n" + rest;
      FirstLineIsRead(line[1..], rest);
      assert [line[0]] + line[1..] == line;
    }
  }

  lemma {:induction false} LinesAreRead(keys: seq<string>, values: seq<string>)
    requires |keys| == |values| && forall k :: 0 <= k < |values| ==> OneLine(values[k])
    ensures Fields(Lines(keys, values), keys) == Some(values)
    decreases |keys|
  {
    if keys != [] {
      var s, rest := Lines(keys, values), Lines(keys[1..], values[1..]);
      assert s == (keys[0] + "=") + (values[0] + "\n" + rest);
      assert s[|keys[0]| + 1..] == values[0] + "\n" + rest;
      FirstLineIsRead(values[0], rest);
      LinesAreRead(keys[1..], values[1..]);
      assert [values[0]] + values[1..] == values;
    }
  }

  lemma NumeralIsRead(n: int)
    ensures ReadNumeral(Numeral(n)) == Some(n) && OneLine(Numeral(n))
  {
    if n < 0 {
      Text.ReadPrint(-n);
      assert Numeral(n)[1..] == Text.Print(-n);
    } else {
      Text.ReadPrint(n);
    }
  }

  /** The text of a validated configuration says what it was printed from, whatever the two times. */
  lemma CanonicalIsInvertible(value: Js, c: Config, issuedAt: int, expiresAt: int)
    requires Parse(value) == Some(c)
    ensures ReadCanonical(Canonical(c, issuedAt, expiresAt)) == Some((c, issuedAt, expiresAt))
  {
    var values := Values(c, issuedAt, expiresAt);
    NumeralIsRead(c.version);
    NumeralIsRead(c.port);
    NumeralIsRead(issuedAt);
    NumeralIsRead(expiresAt);
    LinesAreRead(KEYS, values);
  }

  /** Equal canonical texts come from equal configurations and equal times: the digest in a permit vouches for all of
      them. */
  lemma CanonicalIsInjective(v1: Js, c1: Config, i1: int, e1: int, v2: Js, c2: Config, i2: int, e2: int)
    requires Parse(v1) == Some(c1) && Parse(v2) == Some(c2)
    requires Canonical(c1, i1, e1) == Canonical(c2, i2, e2)
    ensures c1 == c2 && i1 == i2 && e1 == e2
  {
    CanonicalIsInvertible(v1, c1, i1, e1);
    CanonicalIsInvertible(v2, c2, i2, e2);
  }

  /** It is the validation that makes it so: were line feeds let through, two configurations would share one text. */
  lemma UnvalidatedTextsCollide(c: Config, x: string, y: string, z: string, issuedAt: int, expiresAt: int)
    ensures var c1 := c.(endpointId := x + "\nhost=" + y, host := z);
            var c2 := c.(endpointId := x, host := y + "\nhost=" + z);
      c1 != c2 && Canonical(c1, issuedAt, expiresAt) == Canonical(c2, issuedAt, expiresAt)
  {
    var c1 := c.(endpointId := x + "\nhost=" + y, host := z);
    var c2 := c.(endpointId := x, host := y + "\nhost=" + z);
    assert |c1.endpointId| > |c2.endpointId|;
    var v1, v2 := Values(c1, issuedAt, expiresAt), Values(c2, issuedAt, expiresAt);
    Regrouped(x, y, z, Lines(KEYS[4..], v1[4..]));
    FourLines(KEYS, v1);
    FourLines(KEYS, v2);
    assert v1[4..] == v2[4..];
  }

  lemma FourLines(keys: seq<string>, values: seq<string>)
    requires |keys| == |values| >= 4
    ensures Lines(keys, values) ==
      Line(keys[0], values[0]) + (Line(keys[1], values[1]) +
        (Line(keys[2], values[2]) + (Line(keys[3], values[3]) + Lines(keys[4..], values[4..]))))
  {
    hide Line;
    assert keys[1..][1..] == keys[2..] && keys[2..][1..] == keys[3..] && keys[3..][1..] == keys[4..];
    assert values[1..][1..] == values[2..] && values[2..][1..] == values[3..] && values[3..][1..] == values[4..];
    assert Lines(keys[1..], values[1..]) == Line(keys[1], values[1]) + Lines(keys[2..], values[2..]);
    assert Lines(keys[2..], values[2..]) == Line(keys[2], values[2]) + Lines(keys[3..], values[3..]);
    assert Lines(keys[3..], values[3..]) == Line(keys[3], values[3]) + Lines(keys[4..], values[4..]);
  }

  /** Two adjacent lines, the first value ending where the second key begins. */
  lemma TwoLines(key: string, v: string, host: string, w: string)
    ensures Line(key, v) + Line(host, w) == (key + "=" + v) + ("\n" + host + "=") + (w + "\n")
  {
    var head, field, tail := key + "=" + v, host + "=", w + "\n";
    assert Line(host, w) == field + tail;
    assert "\n" + field == "\n" + host + "=";
    assert (head + "\n") + (field + tail) == head + ("\n" + field) + tail;
  }

  lemma Regrouped(x: string, y: string, z: string, rest: string)
    ensures Line("endpoint_id", x + "\nhost=" + y) + (Line("host", z) + rest)
         == Line("endpoint_id", x) + (Line("host", y + "\nhost=" + z) + rest)
  {
    hide Line;
    var e, h := "endpoint_id" + "=", "\n" + "host" + "=";
    assert h == "\nhost=";
    TwoLines("endpoint_id", x + h + y, "host", z);
    TwoLines("endpoint_id", x, "host", y + h + z);
    assert (e + (x + h + y)) + h + (z + "\n") == (e + x) + h + (y + h + z + "\n");
    assert x + "\nhost=" + y == x + h + y && y + "\nhost=" + z == y + h + z;
    Joined(Line("endpoint_id", x + h + y), Line("host", z), rest);
    Joined(Line("endpoint_id", x), Line("host", y + h + z), rest);
  }

  lemma Joined(a: string, b: string, c: string)
    ensures a + (b + c) == (a + b) + c
  {
  }

  predicate IsAscii(s: string) { forall k :: 0 <= k < |s| ==> s[k] as int < 128 }

  lemma {:induction false} AsciiLines(keys: seq<string>, values: seq<string>)
    requires |keys| == |values|
    requires forall k :: 0 <= k < |keys| ==> IsAscii(keys[k]) && IsAscii(values[k])
    ensures IsAscii(Lines(keys, values))
  {
    if keys != [] { AsciiLines(keys[1..], values[1..]); }
  }

  lemma KeysAreAscii()
    ensures |KEYS| == 10 && forall k :: 0 <= k < 10 ==> IsAscii(KEYS[k])
  {
  }

  /** The text is plain ASCII, so that its UTF-8 encoding is one octet a character. */
  lemma CanonicalIsAscii(value: Js, c: Config, issuedAt: int, expiresAt: int)
    requires Parse(value) == Some(c)
    ensures IsAscii(Canonical(c, issuedAt, expiresAt))
  {
    hide KEYS;
    var values := Values(c, issuedAt, expiresAt);
    assert forall k :: 0 <= k < 10 ==> IsAscii(values[k]);
    KeysAreAscii();
    hide IsAscii;
    AsciiLines(KEYS, values);
  }
}

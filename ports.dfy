/** The read-only port sensor: the `/proc/net/tcp` line parser and the per-port observation. The
    two files' lines are parameters (None for a missing file), and so is the clock of the traces. */
module Ports {
  import opened Values

  /** The `st` column value of a socket in the LISTEN state. */
  const LISTEN_STATE := "0A"

  // ------------------------------------------------------------------
  // `str.split()` with no separator
  // ------------------------------------------------------------------

  /** The characters `str.isspace` accepts. */
  predicate IsSpace(c: char) {
    c == ' ' || ('\t' <= c <= '\r') || ('\U{1c}' <= c <= '\U{1f}') || c == '\U{85}' || c == '\U{a0}' ||
    c == '\U{1680}' || ('\U{2000}' <= c <= '\U{200a}') || c == '\U{2028}' || c == '\U{2029}' ||
    c == '\U{202f}' || c == '\U{205f}' || c == '\U{3000}'
  }

  predicate NoSpace(s: string) {
    forall i :: 0 <= i < |s| ==> !IsSpace(s[i])
  }

  /** The maximal run of non-space characters at the head of `s`. */
  function FirstWord(s: string): (w: string)
    requires s != "" && !IsSpace(s[0])
    ensures 1 <= |w| <= |s| && w == s[..|w|] && NoSpace(w)
    ensures |w| == |s| || IsSpace(s[|w|])
    decreases |s|
  {
    if |s| == 1 || IsSpace(s[1]) then [s[0]] else [s[0]] + FirstWord(s[1..])
  }

  /** The whitespace-separated fields of a line, as `line.split()` gives them. */
  function Fields(s: string): (fields: seq<string>)
    ensures forall i :: 0 <= i < |fields| ==> fields[i] != "" && NoSpace(fields[i])
    decreases |s|
  {
    if s == "" then []
    else if IsSpace(s[0]) then Fields(s[1..])
    else
      var w := FirstWord(s);
      [w] + Fields(s[|w|..])
  }

  /** A word followed by a space or by nothing is read as a whole. */
  lemma {:induction false} FirstWordOf(w: string, tail: string)
    requires w != "" && NoSpace(w)
    requires tail == "" || IsSpace(tail[0])
    ensures FirstWord(w + tail) == w
    decreases |w|
  {
    if |w| > 1 {
      assert (w + tail)[1..] == w[1..] + tail;
      FirstWordOf(w[1..], tail);
    }
  }

  /** Splitting words joined by single spaces gives the words back. */
  lemma {:induction false} FieldsOfJoin(words: seq<string>)
    requires forall i :: 0 <= i < |words| ==> words[i] != "" && NoSpace(words[i])
    ensures Fields(Join(words, " ")) == words
  {
    if |words| == 1 {
      FirstWordOf(words[0], "");
      assert words[0] + "" == words[0];
      assert words[0][|words[0]|..] == "";
    } else if |words| > 1 {
      var rest := Join(words[1..], " ");
      var s := words[0] + " " + rest;
      assert s == words[0] + (" " + rest);
      FirstWordOf(words[0], " " + rest);
      assert s[|words[0]|..] == " " + rest;
      assert (" " + rest)[1..] == rest;
      FieldsOfJoin(words[1..]);
      assert [words[0]] + words[1..] == words;
    }
  }

  // ------------------------------------------------------------------
  // `int(text, 16)`
  // ------------------------------------------------------------------

  /** The ten code points from `zero` on: one run of decimal digits. */
  predicate InRun(n: int, zero: int) {
    zero <= n < zero + 10
  }

  /** Where the run of decimal digits holding code point `n` starts, for the runs outside ASCII in
      Unicode 15.0 (the character database of Python 3.12); -1 when `n` is in none. `int` reads
      each such digit as the one it stands for. */
  function DecimalRunZero(n: int): (zero: int)
    ensures zero == -1 || (0x660 <= zero && InRun(n, zero))
  {
    if n < 0x660 then -1
    else if InRun(n, 0x660) then 0x660
    else if InRun(n, 0x6F0) then 0x6F0
    else if InRun(n, 0x7C0) then 0x7C0
    else if InRun(n, 0x966) then 0x966
    else if InRun(n, 0x9E6) then 0x9E6
    else if InRun(n, 0xA66) then 0xA66
    else if InRun(n, 0xAE6) then 0xAE6
    else if InRun(n, 0xB66) then 0xB66
    else if InRun(n, 0xBE6) then 0xBE6
    else if InRun(n, 0xC66) then 0xC66
    else if InRun(n, 0xCE6) then 0xCE6
    else if InRun(n, 0xD66) then 0xD66
    else if InRun(n, 0xDE6) then 0xDE6
    else if InRun(n, 0xE50) then 0xE50
    else if InRun(n, 0xED0) then 0xED0
    else if InRun(n, 0xF20) then 0xF20
    else if InRun(n, 0x1040) then 0x1040
    else if InRun(n, 0x1090) then 0x1090
    else if InRun(n, 0x17E0) then 0x17E0
    else if InRun(n, 0x1810) then 0x1810
    else if InRun(n, 0x1946) then 0x1946
    else if InRun(n, 0x19D0) then 0x19D0
    else if InRun(n, 0x1A80) then 0x1A80
    else if InRun(n, 0x1A90) then 0x1A90
    else if InRun(n, 0x1B50) then 0x1B50
    else if InRun(n, 0x1BB0) then 0x1BB0
    else if InRun(n, 0x1C40) then 0x1C40
    else if InRun(n, 0x1C50) then 0x1C50
    else if InRun(n, 0xA620) then 0xA620
    else if InRun(n, 0xA8D0) then 0xA8D0
    else if InRun(n, 0xA900) then 0xA900
    else if InRun(n, 0xA9D0) then 0xA9D0
    else if InRun(n, 0xA9F0) then 0xA9F0
    else if InRun(n, 0xAA50) then 0xAA50
    else if InRun(n, 0xABF0) then 0xABF0
    else if InRun(n, 0xFF10) then 0xFF10
    else if InRun(n, 0x104A0) then 0x104A0
    else if InRun(n, 0x10D30) then 0x10D30
    else if InRun(n, 0x11066) then 0x11066
    else if InRun(n, 0x110F0) then 0x110F0
    else if InRun(n, 0x11136) then 0x11136
    else if InRun(n, 0x111D0) then 0x111D0
    else if InRun(n, 0x112F0) then 0x112F0
    else if InRun(n, 0x11450) then 0x11450
    else if InRun(n, 0x114D0) then 0x114D0
    else if InRun(n, 0x11650) then 0x11650
    else if InRun(n, 0x116C0) then 0x116C0
    else if InRun(n, 0x11730) then 0x11730
    else if InRun(n, 0x118E0) then 0x118E0
    else if InRun(n, 0x11950) then 0x11950
    else if InRun(n, 0x11C50) then 0x11C50
    else if InRun(n, 0x11D50) then 0x11D50
    else if InRun(n, 0x11DA0) then 0x11DA0
    else if InRun(n, 0x11F50) then 0x11F50
    else if InRun(n, 0x16A60) then 0x16A60
    else if InRun(n, 0x16AC0) then 0x16AC0
    else if InRun(n, 0x16B50) then 0x16B50
    else if InRun(n, 0x1D7CE) then 0x1D7CE
    else if InRun(n, 0x1D7D8) then 0x1D7D8
    else if InRun(n, 0x1D7E2) then 0x1D7E2
    else if InRun(n, 0x1D7EC) then 0x1D7EC
    else if InRun(n, 0x1D7F6) then 0x1D7F6
    else if InRun(n, 0x1E140) then 0x1E140
    else if InRun(n, 0x1E2F0) then 0x1E2F0
    else if InRun(n, 0x1E4F0) then 0x1E4F0
    else if InRun(n, 0x1E950) then 0x1E950
    else if InRun(n, 0x1FBF0) then 0x1FBF0
    else -1
  }

  /** The value of a digit `int(_, 16)` accepts: ASCII hexadecimal digits of either case, and the
      decimal digits of every script. */
  function HexDigitValue(c: char): (v: Option<nat>)
    ensures v.Some? ==> v.value < 16
  {
    if '0' <= c <= '9' then Some(c as int - '0' as int)
    else if 'a' <= c <= 'f' then Some(c as int - 'a' as int + 10)
    else if 'A' <= c <= 'F' then Some(c as int - 'A' as int + 10)
    else if DecimalRunZero(c as int) >= 0 then Some(c as int - DecimalRunZero(c as int))
    else None
  }

  predicate IsHexDigit(c: char) {
    HexDigitValue(c).Some?
  }

  predicate AllHexDigits(s: string) {
    forall i :: 0 <= i < |s| ==> IsHexDigit(s[i])
  }

  /** The value of a string of hexadecimal digits, most significant first. */
  function HexValue(s: string): nat
    requires AllHexDigits(s)
  {
    if s == "" then 0 else HexValue(s[..|s| - 1]) * 16 + HexDigitValue(s[|s| - 1]).value
  }

  /** Digits and underscores, starting and ending with a digit, never two underscores in a row:
      the digit groupings `int` accepts. */
  predicate WellGrouped(s: string) {
    s != "" && IsHexDigit(s[0]) && IsHexDigit(s[|s| - 1]) &&
    (forall i :: 0 <= i < |s| ==> IsHexDigit(s[i]) || s[i] == '_') &&
    (forall i :: 0 <= i < |s| - 1 ==> IsHexDigit(s[i]) || IsHexDigit(s[i + 1]))
  }

  function WithoutUnderscores(s: string): (r: string)
    ensures forall i :: 0 <= i < |s| ==> (s[i] != '_' ==> s[i] in r)
    ensures '_' !in r
  {
    if s == "" then "" else (if s[0] == '_' then "" else [s[0]]) + WithoutUnderscores(s[1..])
  }

  lemma WithoutUnderscoresKeepsDigits(s: string)
    requires WellGrouped(s)
    ensures AllHexDigits(WithoutUnderscores(s))
  {
    DigitsOrUnderscores(s);
  }

  lemma {:induction false} DigitsOrUnderscores(s: string)
    requires forall i :: 0 <= i < |s| ==> IsHexDigit(s[i]) || s[i] == '_'
    ensures AllHexDigits(WithoutUnderscores(s))
  {
    if s != "" {
      DigitsOrUnderscores(s[1..]);
    }
  }

  /** The digit part after an optional sign and an optional `0x`/`0X` prefix (its zero may be any
      decimal zero), which may be followed by one underscore. */
  function HexBody(rest: string): string {
    if |rest| >= 2 && HexDigitValue(rest[0]) == Some(0) && (rest[1] == 'x' || rest[1] == 'X') then
      if |rest| > 2 && rest[2] == '_' then rest[3..] else rest[2..]
    else rest
  }

  /** `int(text, 16)` on a token without whitespace; None where Python raises ValueError. */
  function ParseHex(text: string): (r: Option<int>)
    ensures r.Some? <==> WellGrouped(HexBody(if text != "" && (text[0] == '-' || text[0] == '+') then text[1..] else text))
    ensures r.Some? && text != "" && text[0] == '-' ==> r.value <= 0
    ensures r.Some? && (text == "" || text[0] != '-') ==> r.value >= 0
  {
    var negative := text != "" && text[0] == '-';
    var rest := if text != "" && (text[0] == '-' || text[0] == '+') then text[1..] else text;
    var body := HexBody(rest);
    if !WellGrouped(body) then None
    else
      WithoutUnderscoresKeepsDigits(body);
      var v := HexValue(WithoutUnderscores(body));
      var value: int := if negative then -(v as int) else v as int;
      Some(value)
  }

  /** Decimal digits of other scripts count as digits: `int` reads ARABIC-INDIC DIGIT ONE followed
      by ARABIC-INDIC DIGIT TWO in base 16 as 18. */
  lemma ArabicIndicDigits()
    ensures ParseHex("\U{661}\U{662}") == Some(18)
  {
    var s := "\U{661}\U{662}";
    assert HexDigitValue(s[0]) == Some(1) && HexDigitValue(s[1]) == Some(2);
    assert HexBody(s) == s && WellGrouped(s);
    assert WithoutUnderscores(s) == s by {
      assert WithoutUnderscores(s[1..]) == s[1..];
      assert [s[0]] + s[1..] == s;
    }
    assert s[..1] == [s[0]] && HexValue(s[..1]) == 1 by {
      assert s[..1][..0] == "";
    }
  }

  /** The digits `HexText` writes. */
  predicate IsUpperHexChar(c: char) {
    '0' <= c <= '9' || 'A' <= c <= 'F'
  }

  function HexChar(d: nat): (c: char)
    requires d < 16
    ensures IsUpperHexChar(c) && HexDigitValue(c) == Some(d)
  {
    if d < 10 then ('0' as int + d) as char else ('A' as int + d - 10) as char
  }

  /** The upper-case hexadecimal text of a number, without leading zeros. */
  function HexText(n: nat): (s: string)
    ensures s != "" && AllHexDigits(s)
    ensures forall i :: 0 <= i < |s| ==> IsUpperHexChar(s[i])
    decreases n
  {
    if n < 16 then [HexChar(n)] else HexText(n / 16) + [HexChar(n % 16)]
  }

  lemma {:induction false} HexValueOfHexText(n: nat)
    ensures HexValue(HexText(n)) == n
    decreases n
  {
    if n >= 16 {
      var s := HexText(n);
      assert s[..|s| - 1] == HexText(n / 16);
      HexValueOfHexText(n / 16);
    }
  }

  lemma {:induction false} WithoutUnderscoresOfDigits(s: string)
    requires AllHexDigits(s)
    ensures WithoutUnderscores(s) == s
  {
    if s != "" {
      WithoutUnderscoresOfDigits(s[1..]);
      assert [s[0]] + s[1..] == s;
    }
  }

  /** Reading the hexadecimal text of a number gives the number back. */
  lemma {:induction false} ParseHexText(n: nat)
    ensures ParseHex(HexText(n)) == Some(n)
  {
    var s := HexText(n);
    assert HexBody(s) == s by {
      if |s| >= 2 {
        assert IsUpperHexChar(s[1]);
      }
    }
    WithoutUnderscoresOfDigits(s);
    HexValueOfHexText(n);
  }

  // ------------------------------------------------------------------
  // Lines of `/proc/net/tcp`
  // ------------------------------------------------------------------

  /** The text holds exactly one colon, so that splitting it on ":" gives two parts. */
  predicate OneColon(s: string) {
    multiset(s)[':'] == 1
  }

  /** The part after the first colon: with one colon, the second part of `s.split(":")`. */
  function AfterColon(s: string): string {
    if s == "" then "" else if s[0] == ':' then s[1..] else AfterColon(s[1..])
  }

  lemma {:induction false} AfterColonOf(host: string, port: string)
    requires ':' !in host
    ensures AfterColon(host + ":" + port) == port
  {
    if host != "" {
      assert (host + ":" + port)[1..] == host[1..] + ":" + port;
      AfterColonOf(host[1..], port);
    } else {
      assert host + ":" + port == ":" + port;
    }
  }

  predicate IsListening(fields: seq<string>) {
    |fields| >= 4 && fields[3] == LISTEN_STATE
  }

  /** What one data line gives. */
  datatype LineOutcome = Skipped | Listening(port: int) | Malformed

  /** One data line: skipped when it is short, in another state, or when its port is not valid
      hexadecimal. A listening line whose local address does not split into exactly two parts on ":"
      is Malformed: there the source's unpacking raises, outside the handler for bad hexadecimal. */
  function ReadLine(line: string): (r: LineOutcome)
    ensures r.Malformed? <==> IsListening(Fields(line)) && !OneColon(Fields(line)[1])
    ensures r.Listening? <==> IsListening(Fields(line)) && OneColon(Fields(line)[1]) && ParseHex(AfterColon(Fields(line)[1])).Some?
    ensures r.Listening? ==> ParseHex(AfterColon(Fields(line)[1])) == Some(r.port)
  {
    var fields := Fields(line);
    if |fields| < 4 then Skipped
    else if fields[3] != LISTEN_STATE then Skipped
    else if !OneColon(fields[1]) then Malformed
    else
      match ParseHex(AfterColon(fields[1]))
      case None => Skipped
      case Some(port) => Listening(port)
  }

  /** The outcome of every line, in order. */
  function Outcomes(lines: seq<string>): (outcomes: seq<LineOutcome>)
    ensures |outcomes| == |lines|
  {
    seq(|lines|, i requires 0 <= i < |lines| => ReadLine(lines[i]))
  }

  /** The scan of `_parse_proc_net_tcp` from line `n` on, with `found` the ports found so far: the
      ports found at the end, or None when a malformed line stops the scan. */
  function Scan(outcomes: seq<LineOutcome>, n: nat, found: set<int>): Option<set<int>>
    decreases |outcomes| - n
  {
    if n >= |outcomes| then Some(found)
    else
      match outcomes[n]
      case Malformed => None
      case Skipped => Scan(outcomes, n + 1, found)
      case Listening(port) => Scan(outcomes, n + 1, found + {port})
  }

  /** The listening ports a file's lines describe, skipping the header line: none for a missing
      file, None when a line is malformed. */
  function ListeningPorts(lines: Option<seq<string>>): Option<set<int>> {
    if lines.None? then Some({}) else Scan(Outcomes(lines.value), 1, {})
  }

  /** A scan fails exactly when a line from `n` on is malformed; otherwise a port is in its result
      exactly when it was found already or a line from `n` on gives it. */
  lemma {:induction false} ScanMembers(outcomes: seq<LineOutcome>, n: nat, found: set<int>, p: int)
    ensures Scan(outcomes, n, found).None? <==> exists i :: n <= i < |outcomes| && outcomes[i].Malformed?
    ensures Scan(outcomes, n, found).Some? ==>
      (p in Scan(outcomes, n, found).value <==> p in found || exists i :: n <= i < |outcomes| && outcomes[i] == Listening(p))
    decreases |outcomes| - n
  {
    if n < |outcomes| {
      var found' := if outcomes[n].Listening? then found + {outcomes[n].port} else found;
      ScanMembers(outcomes, n + 1, found', p);
    }
  }

  /** `_parse_proc_net_tcp`: None for the `lines` of a file that does not exist; a None result stands
      for the error raised by a malformed line. */
  method ParseProcNetTcp(lines: Option<seq<string>>) returns (ports: Option<set<int>>)
    ensures ports == ListeningPorts(lines)
  {
    if lines.None? {
      return Some({});
    }
    var ls := lines.value;
    var listening: set<int> := {};
    var i := 1;
    while i < |ls|
      invariant 1 <= i
      invariant Scan(Outcomes(ls), i, listening) == ListeningPorts(lines)
    {
      var outcome := ReadDataLine(ls[i]);
      assert Outcomes(ls)[i] == outcome;
      match outcome {
        case Malformed =>
          return None;
        case Skipped =>
        case Listening(port) =>
          listening := listening + {port};
      }
      i := i + 1;
    }
    ports := Some(listening);
  }

  /** The body of the loop of `_parse_proc_net_tcp` for one data line. */
  method ReadDataLine(line: string) returns (outcome: LineOutcome)
    ensures outcome == ReadLine(line)
  {
    var parts := Fields(line);
    if |parts| < 4 {
      return Skipped;
    }
    var localAddress := parts[1];
    var state := parts[3];
    if state != LISTEN_STATE {
      return Skipped;
    }
    if !OneColon(localAddress) {
      return Malformed;
    }
    var portHex := AfterColon(localAddress);
    var port := ParseHex(portHex);
    if port.None? {
      return Skipped;
    }
    return Listening(port.value);
  }

  /** `_collect_listening_ports`: the union of the IPv4 and IPv6 tables; a failure in either one
      is a failure of the whole. */
  method CollectListeningPorts(tcp: Option<seq<string>>, tcp6: Option<seq<string>>) returns (ports: Option<set<int>>)
    ensures ports.None? <==> ListeningPorts(tcp).None? || ListeningPorts(tcp6).None?
    ensures ports.Some? ==> ports.value == ListeningPorts(tcp).value + ListeningPorts(tcp6).value
  {
    var listening: set<int> := {};
    var v4 := ParseProcNetTcp(tcp);
    if v4.None? {
      return None;
    }
    listening := listening + v4.value;
    var v6 := ParseProcNetTcp(tcp6);
    if v6.None? {
      return None;
    }
    listening := listening + v6.value;
    ports := Some(listening);
  }

  /** The header line never contributes, whatever it holds. */
  lemma {:induction false} HeaderIgnored(header: string, other: string, rest: seq<string>)
    ensures ListeningPorts(Some([header] + rest)) == ListeningPorts(Some([other] + rest))
  {
    var a := Outcomes([header] + rest);
    var b := Outcomes([other] + rest);
    forall i | 1 <= i < |a|
      ensures a[i] == b[i]
    {
      assert ([header] + rest)[i] == ([other] + rest)[i];
    }
    SameOutcomesFrom(a, b, 1, {});
  }

  /** Scans that agree from line `n` on agree. */
  lemma {:induction false} SameOutcomesFrom(a: seq<LineOutcome>, b: seq<LineOutcome>, n: nat, found: set<int>)
    requires |a| == |b|
    requires forall i :: n <= i < |a| ==> a[i] == b[i]
    ensures Scan(a, n, found) == Scan(b, n, found)
    decreases |a| - n
  {
    if n < |a| {
      SameOutcomesFrom(a, b, n + 1, if a[n].Listening? then found + {a[n].port} else found);
    }
  }

  /** A line whose fields, separated by single spaces, are a slot, a local address `host:HEX`, a
      remote address and the LISTEN state contributes exactly that port. */
  lemma {:induction false} ListeningLineContributes(slot: string, host: string, port: nat, remote: string, more: seq<string>)
    requires slot != "" && NoSpace(slot) && remote != "" && NoSpace(remote)
    requires NoSpace(host) && ':' !in host
    requires forall i :: 0 <= i < |more| ==> more[i] != "" && NoSpace(more[i])
    ensures var line := Join([slot, host + ":" + HexText(port), remote, LISTEN_STATE] + more, " ");
      ReadLine(line) == Listening(port)
  {
    LocalAddress(host, port);
    FieldsOfJoin([slot, host + ":" + HexText(port), remote, LISTEN_STATE] + more);
    ParseHexText(port);
  }

  /** A local address `host:HEX` is one field with exactly one colon, followed by the hexadecimal. */
  lemma {:induction false} LocalAddress(host: string, port: nat)
    requires NoSpace(host) && ':' !in host
    ensures var address := host + ":" + HexText(port);
      NoSpace(address) && OneColon(address) && AfterColon(address) == HexText(port)
  {
    var hex := HexText(port);
    var address := host + ":" + hex;
    assert NoSpace(address) by {
      forall i | 0 <= i < |address|
        ensures !IsSpace(address[i])
      {
        if i > |host| {
          assert address[i] == hex[i - |host| - 1];
          assert IsUpperHexChar(hex[i - |host| - 1]);
        }
      }
    }
    assert ':' !in hex by {
      assert forall i :: 0 <= i < |hex| ==> IsUpperHexChar(hex[i]);
    }
    assert multiset(address) == multiset(host) + multiset(":") + multiset(hex);
    AfterColonOf(host, hex);
  }

  // ------------------------------------------------------------------
  // The observation
  // ------------------------------------------------------------------

  datatype Observation = Observation(
    facts: seq<Fact>,
    primaryEvidence: seq<EvidencePrimary>,
    secondaryEvidence: seq<EvidenceSecondary>,
    traces: seq<Trace>)

  function PortStatus(port: int, listening: set<int>): (status: string)
    ensures status == "listening" <==> port in listening
    ensures status == "absent" <==> port !in listening
  {
    if port in listening then "listening" else "absent"
  }

  function PortAttributes(port: int, listening: set<int>): Attrs {
    map["port" := IntText(port), "status" := PortStatus(port, listening)]
  }

  function PortFact(port: int, listening: set<int>): Fact {
    Fact("port.listen", PortAttributes(port, listening))
  }

  function PortEvidence(port: int, listening: set<int>): EvidencePrimary {
    EvidencePrimary("port " + IntText(port) + " " + PortStatus(port, listening))
  }

  function PortTrace(port: int, listening: set<int>, timestamp: Time): Trace {
    Trace(timestamp, "observability.ports", PortAttributes(port, listening))
  }

  /** The observation of `ports` against the set of listening ports: one fact, one primary evidence
      and one trace per port, in order, and no secondary evidence; `clock(i)` is the time read for
      the i-th trace. */
  function Observe(ports: seq<int>, listening: set<int>, clock: nat -> Time): (o: Observation)
    ensures |o.facts| == |ports| && |o.primaryEvidence| == |ports| && |o.traces| == |ports|
    ensures o.secondaryEvidence == []
    ensures forall i :: 0 <= i < |ports| ==>
      o.facts[i] == PortFact(ports[i], listening) &&
      o.primaryEvidence[i] == PortEvidence(ports[i], listening) &&
      o.traces[i] == PortTrace(ports[i], listening, clock(i))
  {
    Observation(
      seq(|ports|, i requires 0 <= i < |ports| => PortFact(ports[i], listening)),
      seq(|ports|, i requires 0 <= i < |ports| => PortEvidence(ports[i], listening)),
      [],
      seq(|ports|, i requires 0 <= i < |ports| => PortTrace(ports[i], listening, clock(i))))
  }

  /** Observing one more port appends its fact, evidence and trace. */
  lemma ObserveSnoc(ports: seq<int>, port: int, listening: set<int>, clock: nat -> Time)
    ensures var before := Observe(ports, listening, clock);
      var after := Observe(ports + [port], listening, clock);
      after.facts == before.facts + [PortFact(port, listening)] &&
      after.primaryEvidence == before.primaryEvidence + [PortEvidence(port, listening)] &&
      after.traces == before.traces + [PortTrace(port, listening, clock(|ports|))]
  {
    var before := Observe(ports, listening, clock);
    var after := Observe(ports + [port], listening, clock);
    var extended := ports + [port];
    forall i | 0 <= i < |extended|
      ensures after.facts[i] == (before.facts + [PortFact(port, listening)])[i]
      ensures after.primaryEvidence[i] == (before.primaryEvidence + [PortEvidence(port, listening)])[i]
      ensures after.traces[i] == (before.traces + [PortTrace(port, listening, clock(|ports|))])[i]
    {
      if i < |ports| {
        assert extended[i] == ports[i];
      }
    }
  }

  /** The loop of `observe_ports` over the requested ports. */
  method ObserveListening(ports: seq<int>, listening: set<int>, clock: nat -> Time) returns (observation: Observation)
    ensures observation == Observe(ports, listening, clock)
  {
    var facts: seq<Fact> := [];
    var evidence: seq<EvidencePrimary> := [];
    var traces: seq<Trace> := [];
    var i := 0;
    while i < |ports|
      invariant 0 <= i <= |ports|
      invariant Observation(facts, evidence, [], traces) == Observe(ports[..i], listening, clock)
    {
      var port := ports[i];
      ObserveSnoc(ports[..i], port, listening, clock);
      assert ports[..i + 1] == ports[..i] + [port];
      facts := facts + [PortFact(port, listening)];
      evidence := evidence + [PortEvidence(port, listening)];
      traces := traces + [PortTrace(port, listening, clock(i))];
      i := i + 1;
    }
    assert ports[..i] == ports;
    observation := Observation(facts, evidence, [], traces);
  }

  /** `observe_ports`: the observation against both tables' listening ports; None when reading the
      tables failed. */
  method ObservePorts(ports: seq<int>, tcp: Option<seq<string>>, tcp6: Option<seq<string>>, clock: nat -> Time)
    returns (observation: Option<Observation>)
    ensures observation.None? <==> ListeningPorts(tcp).None? || ListeningPorts(tcp6).None?
    ensures observation.Some? ==>
      observation.value == Observe(ports, ListeningPorts(tcp).value + ListeningPorts(tcp6).value, clock)
  {
    var collected := CollectListeningPorts(tcp, tcp6);
    if collected.None? {
      return None;
    }
    var o := ObserveListening(ports, collected.value, clock);
    observation := Some(o);
  }

  /** A port is reported listening exactly when a data line of one of the two tables gives it. */
  lemma {:induction false} ListeningMeansALine(port: int, tcp: seq<string>, tcp6: seq<string>)
    requires ListeningPorts(Some(tcp)).Some? && ListeningPorts(Some(tcp6)).Some?
    ensures var listening := ListeningPorts(Some(tcp)).value + ListeningPorts(Some(tcp6)).value;
      PortStatus(port, listening) == "listening" <==>
        (exists i :: 1 <= i < |tcp| && ReadLine(tcp[i]) == Listening(port)) ||
        (exists i :: 1 <= i < |tcp6| && ReadLine(tcp6[i]) == Listening(port))
  {
    ScanMembers(Outcomes(tcp), 1, {}, port);
    ScanMembers(Outcomes(tcp6), 1, {}, port);
    assert forall i :: 1 <= i < |tcp| ==> Outcomes(tcp)[i] == ReadLine(tcp[i]);
    assert forall i :: 1 <= i < |tcp6| ==> Outcomes(tcp6)[i] == ReadLine(tcp6[i]);
  }
}

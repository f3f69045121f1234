// The host-label address codec of app.js: a workspace's pod IP travels in
// the first label(s) of the hostname, with the dots of the IP replaced by
// dashes, optionally followed by a dash and a port.
module AddressCodec {
  import opened JsValues

  /** The port code-server binds inside every workspace pod; the 4-field
      label shape implies it. */
  const DEFAULT_PORT: nat := 8080

  /** The number of address fields in a label: the four octets of an IPv4
      address. */
  const OCTETS: nat := 4

  /** The decimal text of the default port. */
  lemma DefaultPortText()
    ensures DecimalString(DEFAULT_PORT) == "8080"
  {
    assert DecimalString(8) == "8";
    assert DecimalString(80) == "80";
    assert DecimalString(808) == "808";
  }

  /** The port part of a decoded label: the digits of a 5-field label as
      matched (a string), or the number 8080 for a 4-field label. */
  datatype Port = Explicit(digits: string) | DefaultPort

  /** A decoded address: the dotted IP text and its port. */
  datatype Address = Address(ip: string, port: Port)

  /** How the port prints inside `http://${ip}:${port}`. */
  function PortText(p: Port): (t: string)
    ensures p.DefaultPort? ==> t == DecimalString(DEFAULT_PORT)
    ensures p.Explicit? ==> t == p.digits
  {
    match p
    case Explicit(d) => d
    case DefaultPort => DecimalString(DEFAULT_PORT)
  }

  predicate AllDigitRuns(runs: seq<string>)
  {
    forall i :: 0 <= i < |runs| ==> AllDigits(runs[i])
  }

  /** The label shape `r1-r2-...-rk.` at the start of a hostname, each field a
      (possibly empty) run of digits. */
  predicate Shape(host: string, runs: seq<string>)
  {
    |runs| >= 1 && AllDigitRuns(runs) && IsPrefix(Join(runs, '-') + ".", host)
  }

  /** The length of the run of digits at the start of `s` (`\d*`, greedy). */
  function DigitRun(s: string): (n: nat)
    ensures n <= |s|
    ensures AllDigits(s[..n])
    ensures n == |s| || !IsDigit(s[n])
  {
    if s != [] && IsDigit(s[0]) then
      var n := 1 + DigitRun(s[1..]);
      assert s[..n] == [s[0]] + s[1..][..n - 1];
      n
    else 0
  }

  /** Matches `^(\d*)-(\d*)-...(\d*)\.` with `count` groups against `s`.
      A `\d*` group followed by `-` or `.` can only match the maximal run of
      digits, so the regular expression has exactly one way to match. */
  function ScanRuns(s: string, count: nat): (r: Option<seq<string>>)
    requires count >= 1
    ensures r.Some? ==> |r.value| == count && AllDigitRuns(r.value)
    decreases count
  {
    var n := DigitRun(s);
    var run := s[..n];
    if count == 1 then
      if n < |s| && s[n] == '.' then Some([run]) else None
    else if n < |s| && s[n] == '-' then
      match ScanRuns(s[n + 1..], count - 1)
      case Some(rest) => Some([run] + rest)
      case None => None
    else None
  }

  /** getIpFromHost: the 5-field shape `a-b-c-d-p.` first, then the 4-field
      shape `a-b-c-d.` with port 8080, otherwise nothing (`[null, null]`). */
  function Decode(host: string): (d: Option<Address>)
    ensures d.Some? ==> exists runs :: |runs| == OCTETS && AllDigitRuns(runs) && d.value.ip == Join(runs, '.')
    ensures d.Some? && d.value.port.Explicit? ==> AllDigits(d.value.port.digits)
  {
    match ScanRuns(host, OCTETS + 1)
    case Some(r) =>
      AllDigitRunsPrefix(r, OCTETS);
      Some(Address(Join(r[..OCTETS], '.'), Explicit(r[OCTETS])))
    case None =>
      match ScanRuns(host, OCTETS)
      case Some(r) => Some(Address(Join(r, '.'), DefaultPort))
      case None => None
  }

  /** `podIP.replace(/\./g, '-')`: every dot of the IP becomes a dash. */
  function DashIp(ip: string): (d: string)
    ensures |d| == |ip|
    ensures forall i :: 0 <= i < |ip| ==> d[i] == (if ip[i] == '.' then '-' else ip[i])
  {
    if ip == [] then [] else [if ip[0] == '.' then '-' else ip[0]] + DashIp(ip[1..])
  }

  /** The hostname of a workspace's URL: the dashed IP, a dot, the hub's own
      hostname. */
  function HostLabel(ip: string, hostname: string): (host: string)
    ensures |host| == |ip| + 1 + |hostname|
    ensures forall i :: 0 <= i < |ip| ==> host[i] == (if ip[i] == '.' then '-' else ip[i])
    ensures host[|ip|] == '.' && host[|ip| + 1..] == hostname
  {
    DashIp(ip) + "." + hostname
  }

  // ---------------------------------------------------------------------
  // The scanner against the label shape

  lemma {:induction false} JoinLength(runs: seq<string>, sep: char)
    requires |runs| >= 1
    ensures |Join(runs, sep)| >= |runs[0]|
    ensures Join(runs, sep)[..|runs[0]|] == runs[0]
    ensures |runs| > 1 ==> |Join(runs, sep)| > |runs[0]| && Join(runs, sep)[|runs[0]|] == sep
  {
  }

  /** What the scanner returns has the label shape: the right number of digit
      runs, joined by dashes and followed by a dot. */
  lemma {:induction false} ScanSound(s: string, count: nat)
    requires count >= 1
    ensures ScanRuns(s, count).Some? ==> |ScanRuns(s, count).value| == count && Shape(s, ScanRuns(s, count).value)
    decreases count
  {
    var n := DigitRun(s);
    if count > 1 && n < |s| && s[n] == '-' {
      var tail := s[n + 1..];
      ScanSound(tail, count - 1);
      var r := ScanRuns(tail, count - 1);
      if r.Some? {
        var runs := [s[..n]] + r.value;
        assert runs[1..] == r.value;
        var j := Join(r.value, '-') + ".";
        assert Join(runs, '-') + "." == s[..n] + "-" + j;
        PrefixAfterDash(s, n, j);
      }
    }
  }

  lemma PrefixAfterDash(s: string, n: nat, p: string)
    requires n < |s| && s[n] == '-' && IsPrefix(p, s[n + 1..])
    ensures IsPrefix(s[..n] + "-" + p, s)
  {
    assert s == s[..n] + "-" + s[n + 1..];
  }

  /** One step through a label shape: the first field is the greedy digit
      run at the start, followed by the final dot or by a dash and the shape
      of the remaining fields. */
  lemma ShapeStep(s: string, runs: seq<string>)
    requires Shape(s, runs)
    ensures DigitRun(s) == |runs[0]| < |s| && s[..|runs[0]|] == runs[0]
    ensures |runs| == 1 ==> s[|runs[0]|] == '.'
    ensures |runs| > 1 ==> s[|runs[0]|] == '-' && Shape(s[|runs[0]| + 1..], runs[1..])
  {
    ShapeHead(s, runs);
    DigitRunOf(s, runs[0]);
    if |runs| > 1 {
      ShapeTail(s, runs);
    }
  }

  lemma ShapeHead(s: string, runs: seq<string>)
    requires Shape(s, runs)
    ensures |runs[0]| < |s| && IsPrefix(runs[0], s) && AllDigits(runs[0])
    ensures s[|runs[0]|] == if |runs| == 1 then '.' else '-'
  {
    var j := Join(runs, '-');
    JoinLength(runs, '-');
    var n := |runs[0]|;
    assert s[..|j| + 1] == j + ".";
    assert s[..n] == (j + ".")[..n];
    assert s[n] == (j + ".")[n];
  }

  lemma ShapeTail(s: string, runs: seq<string>)
    requires Shape(s, runs) && |runs| > 1
    ensures Shape(s[|runs[0]| + 1..], runs[1..])
  {
    var j := Join(runs, '-');
    JoinLength(runs, '-');
    var n := |runs[0]|;
    var tail := s[n + 1..];
    var rest := runs[1..];
    assert s[..|j| + 1] == j + ".";
    assert j == runs[0] + "-" + Join(rest, '-');
    assert Join(rest, '-') + "." == (j + ".")[n + 1..];
    assert forall i :: 0 <= i < |rest| ==> AllDigits(rest[i]) by {
      forall i | 0 <= i < |rest| ensures AllDigits(rest[i]) { assert rest[i] == runs[i + 1]; }
    }
    assert tail[..|Join(rest, '-') + "."|] == s[n + 1..|j| + 1];
  }

  /** The scanner finds every label shape with the right number of fields. */
  lemma {:induction false} ScanComplete(s: string, runs: seq<string>)
    requires Shape(s, runs)
    ensures ScanRuns(s, |runs|) == Some(runs)
    decreases |runs|
  {
    ShapeStep(s, runs);
    var r0 := runs[0];
    if |runs| == 1 {
      assert runs == [r0];
    } else {
      ScanComplete(s[|r0| + 1..], runs[1..]);
      assert [r0] + runs[1..] == runs;
    }
  }

  /** A digit run followed by a non-digit is exactly what DigitRun measures. */
  lemma DigitRunOf(s: string, run: string)
    requires IsPrefix(run, s) && AllDigits(run)
    requires |run| < |s| && !IsDigit(s[|run|])
    ensures DigitRun(s) == |run|
  {
    var n := DigitRun(s);
    forall k | 0 <= k < |run| ensures IsDigit(s[k]) { assert s[..|run|][k] == s[k]; }
    forall k | 0 <= k < n ensures IsDigit(s[k]) { assert s[..n][k] == s[k]; }
  }

  /** Replacing the dots of the joined octets by dashes joins them by dashes. */
  lemma {:induction false} DashJoin(runs: seq<string>)
    requires |runs| >= 1 && AllDigitRuns(runs)
    ensures DashIp(Join(runs, '.')) == Join(runs, '-')
    decreases |runs|
  {
    var d := Join(runs, '.');
    var e := Join(runs, '-');
    if |runs| > 1 {
      DashJoin(runs[1..]);
      assert AllDigitRuns(runs[1..]) by {
        forall i | 0 <= i < |runs| - 1 ensures AllDigits(runs[1..][i]) { assert runs[1..][i] == runs[i + 1]; }
      }
    }
    JoinSameLength(runs);
    forall i | 0 <= i < |d| ensures DashIp(d)[i] == e[i] {
      JoinAt(runs, i);
    }
  }

  lemma {:induction false} JoinSameLength(runs: seq<string>)
    requires |runs| >= 1
    ensures |Join(runs, '.')| == |Join(runs, '-')|
    decreases |runs|
  {
    if |runs| > 1 { JoinSameLength(runs[1..]); }
  }

  /** Position by position, the dot-joined and dash-joined texts differ only
      where the separator stands, and a digit run has no dot. */
  lemma {:induction false} JoinAt(runs: seq<string>, i: nat)
    requires |runs| >= 1 && AllDigitRuns(runs)
    requires i < |Join(runs, '.')|
    ensures |Join(runs, '.')| == |Join(runs, '-')|
    ensures Join(runs, '-')[i] == (if Join(runs, '.')[i] == '.' then '-' else Join(runs, '.')[i])
    decreases |runs|
  {
    JoinSameLength(runs);
    var r0 := runs[0];
    assert AllDigits(r0);
    if |runs| > 1 {
      assert AllDigitRuns(runs[1..]) by {
        forall k | 0 <= k < |runs| - 1 ensures AllDigits(runs[1..][k]) { assert runs[1..][k] == runs[k + 1]; }
      }
      assert Join(runs, '.') == r0 + "." + Join(runs[1..], '.');
      assert Join(runs, '-') == r0 + "-" + Join(runs[1..], '-');
      if i > |r0| {
        JoinAt(runs[1..], i - |r0| - 1);
      } else if i < |r0| {
        assert IsDigit(r0[i]);
      }
    } else {
      assert IsDigit(r0[i]);
    }
  }

  // ---------------------------------------------------------------------
  // Properties of getIpFromHost and of the encoder

  /** The two label shapes exclude each other: after the fourth digit run a
      5-field label has a dash and a 4-field label a dot. So the order in
      which getIpFromHost tries them never decides anything. */
  lemma ShapesExclusive(host: string, five: seq<string>, four: seq<string>)
    requires |five| == OCTETS + 1 && |four| == OCTETS
    ensures !(Shape(host, five) && Shape(host, four))
  {
    if Shape(host, five) && Shape(host, four) {
      ScanComplete(host, five);
      ScanPrefix(host, four, OCTETS + 1);
    }
  }

  /** Scanning for more fields than a label has fails at its final dot. */
  lemma {:induction false} ScanPrefix(s: string, runs: seq<string>, count: nat)
    requires Shape(s, runs) && count > |runs|
    ensures ScanRuns(s, count).None?
    decreases |runs|
  {
    ShapeStep(s, runs);
    if |runs| > 1 {
      ScanPrefix(s[|runs[0]| + 1..], runs[1..], count - 1);
    }
  }

  /** getIpFromHost decodes a 5-field label into its first four fields joined
      by dots and the fifth as the port, and exactly those labels. */
  lemma DecodeFiveFields(host: string, runs: seq<string>)
    requires |runs| == OCTETS + 1 && AllDigitRuns(runs)
    ensures Shape(host, runs) <==> Decode(host) == Some(Address(Join(runs[..OCTETS], '.'), Explicit(runs[OCTETS])))
  {
    if Shape(host, runs) {
      ScanComplete(host, runs);
    }
    if Decode(host) == Some(Address(Join(runs[..OCTETS], '.'), Explicit(runs[OCTETS]))) {
      DecodedFiveFields(host, runs);
    }
  }

  lemma DecodedFiveFields(host: string, runs: seq<string>)
    requires |runs| == OCTETS + 1 && AllDigitRuns(runs)
    requires Decode(host) == Some(Address(Join(runs[..OCTETS], '.'), Explicit(runs[OCTETS])))
    ensures Shape(host, runs)
  {
    DecodeExplicitPort(host);
    SameFields(ScanRuns(host, OCTETS + 1).value, runs);
  }

  /** Two lists of five digit runs agree when their first four joined by
      dots agree and so do their fifth. */
  lemma SameFields(v: seq<string>, runs: seq<string>)
    requires |v| == |runs| == OCTETS + 1 && AllDigitRuns(v) && AllDigitRuns(runs)
    requires Join(v[..OCTETS], '.') == Join(runs[..OCTETS], '.') && v[OCTETS] == runs[OCTETS]
    ensures v == runs
  {
    AllDigitRunsPrefix(v, OCTETS);
    AllDigitRunsPrefix(runs, OCTETS);
    JoinInjective(v[..OCTETS], runs[..OCTETS], '.');
    assert v == v[..OCTETS] + [v[OCTETS]] && runs == runs[..OCTETS] + [runs[OCTETS]];
  }

  lemma AllDigitRunsPrefix(runs: seq<string>, k: nat)
    requires AllDigitRuns(runs) && k <= |runs|
    ensures AllDigitRuns(runs[..k])
  {
    forall i | 0 <= i < k ensures AllDigits(runs[..k][i]) { assert runs[..k][i] == runs[i]; }
  }

  /** getIpFromHost decodes a 4-field label into its fields joined by dots
      with the default port 8080, and exactly those labels. */
  lemma DecodeFourFields(host: string, runs: seq<string>)
    requires |runs| == OCTETS && AllDigitRuns(runs)
    ensures Shape(host, runs) <==> Decode(host) == Some(Address(Join(runs, '.'), DefaultPort))
  {
    if Shape(host, runs) {
      ScanComplete(host, runs);
      ScanPrefix(host, runs, OCTETS + 1);
    }
    if Decode(host) == Some(Address(Join(runs, '.'), DefaultPort)) {
      DecodeDefaultPort(host);
      var v := ScanRuns(host, OCTETS).value;
      JoinInjective(v, runs, '.');
    }
  }

  /** A decode with an explicit port comes from the 5-field scan. */
  lemma DecodeExplicitPort(host: string)
    requires Decode(host).Some? && Decode(host).value.port.Explicit?
    ensures ScanRuns(host, OCTETS + 1).Some?
    ensures var v := ScanRuns(host, OCTETS + 1).value;
      && |v| == OCTETS + 1 && Shape(host, v) && AllDigitRuns(v)
      && Decode(host).value == Address(Join(v[..OCTETS], '.'), Explicit(v[OCTETS]))
  {
    ScanSound(host, OCTETS + 1);
  }

  /** A decode with the default port comes from the 4-field scan. */
  lemma DecodeDefaultPort(host: string)
    requires Decode(host).Some? && Decode(host).value.port.DefaultPort?
    ensures ScanRuns(host, OCTETS).Some?
    ensures |ScanRuns(host, OCTETS).value| == OCTETS && Shape(host, ScanRuns(host, OCTETS).value)
    ensures Decode(host).value.ip == Join(ScanRuns(host, OCTETS).value, '.')
  {
    ScanSound(host, OCTETS);
  }

  /** getIpFromHost gives `[null, null]` exactly when the hostname starts with
      neither label shape. */
  lemma DecodeNone(host: string)
    ensures Decode(host).None? <==> forall runs :: (|runs| == OCTETS || |runs| == OCTETS + 1) ==> !Shape(host, runs)
  {
    ScanSound(host, OCTETS + 1);
    ScanSound(host, OCTETS);
    if Decode(host).None? {
      forall runs | |runs| == OCTETS || |runs| == OCTETS + 1 ensures !Shape(host, runs) {
        if Shape(host, runs) {
          if |runs| == OCTETS { ScanPrefix(host, runs, OCTETS + 1); }
          ScanComplete(host, runs);
        }
      }
    }
  }

  /** Digit runs joined by a non-digit separator determine the runs. */
  lemma {:induction false} JoinInjective(a: seq<string>, b: seq<string>, sep: char)
    requires |a| >= 1 && |a| == |b| && AllDigitRuns(a) && AllDigitRuns(b) && !IsDigit(sep)
    requires Join(a, sep) == Join(b, sep)
    ensures a == b
    decreases |a|
  {
    var ja := Join(a, sep);
    JoinLength(a, sep);
    JoinLength(b, sep);
    assert AllDigits(a[0]) && AllDigits(b[0]);
    forall k | 0 <= k < |a[0]| ensures IsDigit(ja[k]) { assert ja[..|a[0]|][k] == ja[k]; }
    forall k | 0 <= k < |b[0]| ensures IsDigit(ja[k]) { assert ja[..|b[0]|][k] == ja[k]; }
    assert |a[0]| == |b[0]|;
    assert a[0] == b[0];
    if |a| > 1 {
      assert AllDigitRuns(a[1..]) by {
        forall k | 0 <= k < |a| - 1 ensures AllDigits(a[1..][k]) { assert a[1..][k] == a[k + 1]; }
      }
      assert AllDigitRuns(b[1..]) by {
        forall k | 0 <= k < |b| - 1 ensures AllDigits(b[1..][k]) { assert b[1..][k] == b[k + 1]; }
      }
      assert Join(a[1..], sep) == ja[|a[0]| + 1..];
      JoinInjective(a[1..], b[1..], sep);
      assert a == [a[0]] + a[1..] && b == [b[0]] + b[1..];
    }
  }

  /** Round trip: for a pod IP made of four digit-only octets and any hub
      hostname, the workspace label built for it decodes back to that IP with
      the default port 8080. */
  lemma RoundTrip(octets: seq<string>, hostname: string)
    requires |octets| == OCTETS && AllDigitRuns(octets)
    ensures Decode(HostLabel(Join(octets, '.'), hostname)) == Some(Address(Join(octets, '.'), DefaultPort))
  {
    var encoded := HostLabel(Join(octets, '.'), hostname);
    DashJoin(octets);
    var j := Join(octets, '-');
    assert encoded == (j + ".") + hostname;
    assert encoded[..|j + "."|] == j + ".";
    DecodeFourFields(encoded, octets);
  }

  /** A decoded IP is never empty (it holds at least three dots), so the
      callers' `if (ip)` test is true for every decoded address. */
  lemma DecodedIpNonEmpty(host: string)
    requires Decode(host).Some?
    ensures |Decode(host).value.ip| >= 3
  {
    ScanSound(host, OCTETS + 1);
    ScanSound(host, OCTETS);
    var r := if ScanRuns(host, OCTETS + 1).Some? then ScanRuns(host, OCTETS + 1).value[..OCTETS] else ScanRuns(host, OCTETS).value;
    assert |r| == OCTETS;
    JoinCount(r, '.');
  }

  lemma {:induction false} JoinCount(runs: seq<string>, sep: char)
    requires |runs| >= 1
    ensures |Join(runs, sep)| >= |runs| - 1
    decreases |runs|
  {
    if |runs| > 1 { JoinCount(runs[1..], sep); }
  }
}

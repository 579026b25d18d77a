/** The IP whitelist request model: a length bound and the dotted-quad
    pattern of `validate_ip_address`, matched with Python's `re.match`. */
module IpWhitelistRequests {
  import opened Text
  import opened JsonData
  import opened Schema

  datatype IPWhitelistRequest = IPWhitelistRequest(ip: string)

  // --- One octet: `25[0-5]|2[0-4][0-9]|[01]?[0-9][0-9]?` ---

  predicate Alt25(s: string) {
    |s| == 3 && s[0] == '2' && s[1] == '5' && '0' <= s[2] <= '5'
  }

  predicate Alt2x(s: string) {
    |s| == 3 && s[0] == '2' && '0' <= s[1] <= '4' && IsDigit(s[2])
  }

  predicate ZeroOrOne(c: char) {
    c == '0' || c == '1'
  }

  /** `[01]?[0-9][0-9]?`, one disjunct per choice of the two optional parts. */
  predicate AltShort(s: string) {
    || (|s| == 1 && IsDigit(s[0]))
    || (|s| == 2 && IsDigit(s[0]) && IsDigit(s[1]))
    || (|s| == 2 && ZeroOrOne(s[0]) && IsDigit(s[1]))
    || (|s| == 3 && ZeroOrOne(s[0]) && IsDigit(s[1]) && IsDigit(s[2]))
  }

  predicate OctetPattern(s: string) {
    Alt25(s) || Alt2x(s) || AltShort(s)
  }

  /** The octet alternatives describe exactly the one- to three-digit
      strings of value at most 255, leading zeros included. */
  lemma OctetPatternIff(s: string)
    ensures OctetPattern(s) <==> 1 <= |s| <= 3 && AllDigits(s) && DecimalValue(s) <= 255
  {
    if 1 <= |s| <= 3 && AllDigits(s) {
      assert DecimalValue(s[..0]) == 0;
      if |s| >= 2 {
        assert s[..1][..0] == s[..0];
        assert DecimalValue(s[..1]) == DigitValue(s[0]);
      }
      if |s| == 3 {
        assert s[..2][..1] == s[..1];
        assert DecimalValue(s[..2]) == DigitValue(s[0]) * 10 + DigitValue(s[1]);
        assert DecimalValue(s) == (DigitValue(s[0]) * 10 + DigitValue(s[1])) * 10 + DigitValue(s[2]);
      }
    }
  }

  // --- Splitting on dots ---

  /** `s.split(".")`: always at least one part, none containing a dot. */
  function Split(s: string): (parts: seq<string>)
    ensures |parts| >= 1
    ensures forall i :: 0 <= i < |parts| ==> '.' !in parts[i]
    decreases |s|
  {
    var k := IndexOf(s, '.');
    if k == |s| then [s] else [s[..k]] + Split(s[k + 1..])
  }

  /** `".".join(parts)` */
  function Join(parts: seq<string>): string
    requires |parts| >= 1
  {
    if |parts| == 1 then parts[0] else parts[0] + "." + Join(parts[1..])
  }

  lemma {:induction false} JoinSplit(s: string)
    ensures Join(Split(s)) == s
    decreases |s|
  {
    var k := IndexOf(s, '.');
    if k < |s| {
      JoinSplit(s[k + 1..]);
      assert s == s[..k] + "." + s[k + 1..];
    }
  }

  lemma IndexOfDotFree(a: string, rest: string)
    requires '.' !in a
    ensures IndexOf(a + "." + rest, '.') == |a|
  {
    var s := a + "." + rest;
    assert s[|a|] == '.';
    assert forall j :: 0 <= j < |a| ==> s[j] == a[j] && a[j] != '.';
  }

  lemma {:induction false} SplitJoin(parts: seq<string>)
    requires |parts| >= 1
    requires forall i :: 0 <= i < |parts| ==> '.' !in parts[i]
    ensures Split(Join(parts)) == parts
  {
    if |parts| == 1 {
      var k := IndexOf(parts[0], '.');
      if k < |parts[0]| {
        assert parts[0][k] in parts[0];
      }
    } else {
      var rest := Join(parts[1..]);
      var s := parts[0] + "." + rest;
      IndexOfDotFree(parts[0], rest);
      assert s[..|parts[0]|] == parts[0];
      assert s[|parts[0]| + 1..] == rest;
      SplitJoin(parts[1..]);
    }
  }

  // --- The whole address ---

  /** The recogniser: four parts after splitting on dots, each matching the
      octet alternatives. */
  predicate Quad(s: string) {
    var p := Split(s);
    |p| == 4 && OctetPattern(p[0]) && OctetPattern(p[1]) && OctetPattern(p[2]) && OctetPattern(p[3])
  }

  /** The pattern's language: three octets each followed by a dot, then a
      fourth octet. */
  ghost predicate RegexMatches(s: string) {
    exists a, b, c, d :: OctetPattern(a) && OctetPattern(b) && OctetPattern(c) && OctetPattern(d)
                         && s == a + "." + b + "." + c + "." + d
  }

  lemma OctetHasNoDot(s: string)
    requires OctetPattern(s)
    ensures '.' !in s && 1 <= |s| <= 3
  {
    OctetPatternIff(s);
    assert forall i :: 0 <= i < |s| ==> s[i] != '.';
  }

  lemma Join4(a: string, b: string, c: string, d: string)
    ensures Join([a, b, c, d]) == a + "." + b + "." + c + "." + d
  {
    assert [a, b, c, d][1..] == [b, c, d];
    assert [b, c, d][1..] == [c, d];
    assert [c, d][1..] == [d];
    assert Join([c, d]) == c + "." + d;
    assert Join([b, c, d]) == b + "." + (c + "." + d);
    assert b + "." + (c + "." + d) == b + "." + c + "." + d;
    assert a + "." + (b + "." + c + "." + d) == a + "." + b + "." + c + "." + d;
  }

  /** The recogniser accepts exactly the pattern's language. */
  lemma QuadIff(s: string)
    ensures Quad(s) <==> RegexMatches(s)
  {
    if Quad(s) {
      var p := Split(s);
      JoinSplit(s);
      assert p == [p[0], p[1], p[2], p[3]];
      Join4(p[0], p[1], p[2], p[3]);
    }
    if RegexMatches(s) {
      var a, b, c, d :| OctetPattern(a) && OctetPattern(b) && OctetPattern(c) && OctetPattern(d)
                        && s == a + "." + b + "." + c + "." + d;
      OctetHasNoDot(a);
      OctetHasNoDot(b);
      OctetHasNoDot(c);
      OctetHasNoDot(d);
      Join4(a, b, c, d);
      SplitJoin([a, b, c, d]);
    }
  }

  /** An address in the pattern's language is 7 to 15 characters long. */
  lemma QuadLength(s: string)
    requires RegexMatches(s)
    ensures 7 <= |s| <= 15
  {
    var a, b, c, d :| OctetPattern(a) && OctetPattern(b) && OctetPattern(c) && OctetPattern(d)
                      && s == a + "." + b + "." + c + "." + d;
    OctetHasNoDot(a);
    OctetHasNoDot(b);
    OctetHasNoDot(c);
    OctetHasNoDot(d);
  }

  /** `ip_pattern.match(v)` with `^ ... $`: Python's `$` also matches just
      before a newline that ends the string. */
  predicate PyMatch(v: string) {
    Quad(v) || (|v| >= 1 && v[|v| - 1] == '\n' && Quad(v[..|v| - 1]))
  }

  ghost predicate PyRegexLanguage(v: string) {
    RegexMatches(v) || exists w :: RegexMatches(w) && v == w + "\n"
  }

  lemma PyMatchIff(v: string)
    ensures PyMatch(v) <==> PyRegexLanguage(v)
  {
    QuadIff(v);
    if |v| >= 1 && v[|v| - 1] == '\n' {
      var u := v[..|v| - 1];
      assert v == u + "\n";
      QuadIff(u);
      forall w | v == w + "\n"
        ensures w == u
      {
        assert v[..|v| - 1] == w;
      }
    } else {
      assert forall w :: (w + "\n")[|w|] == '\n';
    }
  }

  /** `IPWhitelistRequest(ip=...)`: the length bound, then the validator,
      which hands its input back unchanged. */
  function IpSchema(ip: string): (r: Checked<IPWhitelistRequest>)
    ensures r.Valid? <==> 7 <= |ip| <= 45 && PyMatch(ip)
    ensures r.Valid? ==> r.value.ip == ip
    ensures r.Invalid? ==> r.fields == ["ip"]
  {
    var checks := [Check("ip", LengthWithin(ip, 7, 45) && PyMatch(ip))];
    assert checks[0].ok == (LengthWithin(ip, 7, 45) && PyMatch(ip));
    assert Failing(checks) == (if checks[0].ok then [] else ["ip"]) + Failing([]);
    Construct(checks, IPWhitelistRequest(ip))
  }

  /** The length bound never rejects an address the pattern matches, so
      acceptance is the pattern alone. */
  lemma LengthBoundRedundant(ip: string)
    ensures IpSchema(ip).Valid? <==> PyRegexLanguage(ip)
    ensures IpSchema(ip).Valid? ==> 7 <= |ip| <= 16
  {
    PyMatchIff(ip);
    if RegexMatches(ip) {
      QuadLength(ip);
    } else if PyRegexLanguage(ip) {
      var w :| RegexMatches(w) && ip == w + "\n";
      QuadLength(w);
    }
  }

  /** `add_ip_to_whitelist` and `remove_ip_from_whitelist` send `{"ip": ip}`. */
  function IpPayload(r: IPWhitelistRequest): (m: Object)
    ensures m.Keys == {"ip"} && m["ip"] == JStr(r.ip)
  {
    map["ip" := JStr(r.ip)]
  }

  /** Leading zeros are accepted. */
  lemma IpAcceptsLeadingZeros()
    ensures IpSchema("010.001.0.1").Valid?
  {
    AcceptedExample("010", "001", "0", "1");
    assert "010" + "." + "001" + "." + "0" + "." + "1" == "010.001.0.1";
  }

  /** One trailing newline is accepted, as Python's `$` allows. */
  lemma IpAcceptsTrailingNewline()
    ensures IpSchema("1.2.3.4\n").Valid?
  {
    AcceptedExample("1", "2", "3", "4");
    assert "1" + "." + "2" + "." + "3" + "." + "4" == "1.2.3.4" == "1.2.3.4\n"[..7];
  }

  /** The largest octets are accepted. */
  lemma IpAcceptsMaximum()
    ensures IpSchema("255.255.255.255").Valid?
  {
    AcceptedExample("255", "255", "255", "255");
    assert "255" + "." + "255" + "." + "255" + "." + "255" == "255.255.255.255";
  }

  /** An octet above 255 is rejected. */
  lemma IpRejectsLargeOctet()
    ensures !IpSchema("256.1.1.1").Valid?
  {
    RejectedQuad("256", "1", "1", "1");
    assert "256" + "." + "1" + "." + "1" + "." + "1" == "256.1.1.1";
  }

  /** Three octets are rejected. */
  lemma IpRejectsThreeOctets()
    ensures !IpSchema("1.2.3").Valid?
  {
    var p := ["1", "2", "3"];
    assert Join(p) == "1.2.3" by {
      assert p[1..] == ["2", "3"] && p[1..][1..] == ["3"];
    }
    RejectedParts(p);
  }

  /** Five octets are rejected. */
  lemma IpRejectsFiveOctets()
    ensures !IpSchema("1.2.3.4.5").Valid?
  {
    var p := ["1", "2", "3", "4", "5"];
    assert p[1..] == ["2", "3", "4", "5"];
    Join4("2", "3", "4", "5");
    assert Join(p) == "1" + "." + "2.3.4.5" == "1.2.3.4.5";
    RejectedParts(p);
  }

  /** An empty octet is rejected. */
  lemma IpRejectsEmptyOctet()
    ensures !IpSchema("1..2.3.4").Valid?
  {
    var p := ["1", "", "2", "3", "4"];
    assert p[1..] == ["", "2", "3", "4"];
    Join4("", "2", "3", "4");
    assert Join(p) == "1" + "." + ".2.3.4" == "1..2.3.4";
    RejectedParts(p);
  }

  /** Letters and IPv6 text are rejected. */
  lemma IpRejectsOtherText()
    ensures !IpSchema("a.b.c.d").Valid?
    ensures !IpSchema("::1").Valid?
  {
    RejectedQuad("a", "b", "c", "d");
    assert "a" + "." + "b" + "." + "c" + "." + "d" == "a.b.c.d";
    assert Join(["::1"]) == "::1";
    RejectedParts(["::1"]);
  }

  /** Four dot-free parts, not all octets, and no final newline: rejected. */
  lemma RejectedQuad(a: string, b: string, c: string, d: string)
    requires '.' !in a && '.' !in b && '.' !in c && '.' !in d
    requires !(OctetPattern(a) && OctetPattern(b) && OctetPattern(c) && OctetPattern(d))
    requires |d| >= 1 && d[|d| - 1] != '\n'
    ensures !IpSchema(a + "." + b + "." + c + "." + d).Valid?
  {
    var s := a + "." + b + "." + c + "." + d;
    Join4(a, b, c, d);
    SplitJoin([a, b, c, d]);
    assert s[|s| - 1] == d[|d| - 1];
  }

  /** Dot-free parts other than four, the last one not ending in a newline:
      rejected. */
  lemma RejectedParts(parts: seq<string>)
    requires |parts| >= 1 && |parts| != 4
    requires forall i :: 0 <= i < |parts| ==> '.' !in parts[i]
    requires |parts[|parts| - 1]| >= 1 && parts[|parts| - 1][|parts[|parts| - 1]| - 1] != '\n'
    ensures !IpSchema(Join(parts)).Valid?
  {
    SplitJoin(parts);
    JoinLast(parts);
  }

  /** A join ends with the last character of its last part. */
  lemma {:induction false} JoinLast(parts: seq<string>)
    requires |parts| >= 1 && |parts[|parts| - 1]| >= 1
    ensures var s := Join(parts); var l := parts[|parts| - 1];
      |s| >= 1 && s[|s| - 1] == l[|l| - 1]
  {
    if |parts| > 1 {
      JoinLast(parts[1..]);
    }
  }

  /** Every address in the pattern's language ends with a digit. */
  lemma RegexEndsWithDigit(s: string)
    ensures RegexMatches(s) ==> |s| >= 1 && IsDigit(s[|s| - 1])
  {
    if RegexMatches(s) {
      var a, b, c, d :| OctetPattern(a) && OctetPattern(b) && OctetPattern(c) && OctetPattern(d)
                        && s == a + "." + b + "." + c + "." + d;
      OctetPatternIff(d);
      assert s[|s| - 1] == d[|d| - 1];
    }
  }

  /** Only one trailing newline is let through: nothing ending in two
      newlines is accepted. */
  lemma IpRejectsSecondNewline(w: string)
    ensures !IpSchema(w + "\n\n").Valid?
  {
    var v := w + "\n\n";
    assert v[..|v| - 1] == w + "\n";
    QuadIff(v);
    QuadIff(w + "\n");
    RegexEndsWithDigit(v);
    RegexEndsWithDigit(w + "\n");
  }

  lemma AcceptedExample(a: string, b: string, c: string, d: string)
    requires OctetPattern(a) && OctetPattern(b) && OctetPattern(c) && OctetPattern(d)
    ensures Quad(a + "." + b + "." + c + "." + d)
  {
    QuadIff(a + "." + b + "." + c + "." + d);
  }
}

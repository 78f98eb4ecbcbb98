/** The configuration file as text: what its lines, numbers and settings mean, written out. */
module ConfText {
  import opened Conf

  // ---------------------------------------------------------------- numbers

  /** The decimal digits of n. */
  function Decimal(n: nat): (s: string)
    ensures s != "" && forall i :: 0 <= i < |s| ==> '0' <= s[i] <= '9'
  {
    if n < 10 then ["0123456789"[n]] else Decimal(n / 10) + ["0123456789"[n % 10]]
  }

  lemma DigitFirst(d: nat, rest: string, n: nat)
    requires d < 10
    ensures Digits(["0123456789"[d]] + rest, n) == Digits(rest, n * 10 + d)
  {
    var s := ["0123456789"[d]] + rest;
    assert s[1..] == rest && s[0] as int == '0' as int + d;
  }

  lemma {:induction false} DigitsOfDecimal(n: nat, rest: string)
    ensures Digits(Decimal(n) + rest, 0) == Digits(rest, n)
  {
    hide Digits;
    if n < 10 {
      DigitFirst(n, rest, 0);
    } else {
      var d := ["0123456789"[n % 10]];
      DigitsOfDecimal(n / 10, d + rest);
      assert Decimal(n) + rest == Decimal(n / 10) + (d + rest);
      DigitFirst(n % 10, rest, n / 10);
    }
  }

  /** Blanks as `isspace` has them. */
  predicate Blank(s: string) {
    forall i :: 0 <= i < |s| ==> s[i] as int == 32 || 9 <= s[i] as int <= 13
  }

  lemma {:induction false} LeadOf(blanks: string, s: string)
    requires Blank(blanks) && (s == "" || !Blank([s[0]]))
    ensures Lead(blanks + s) == |blanks| && (blanks + s)[|blanks|..] == s
  {
    if blanks != "" {
      assert (blanks + s)[1..] == blanks[1..] + s;
      LeadOf(blanks[1..], s);
      assert (blanks + s)[0] == blanks[0];
    } else {
      assert blanks + s == s;
      assert s != "" ==> [s[0]][0] == s[0];
    }
  }

  predicate NoDigit(rest: string) {
    rest == "" || !('0' <= rest[0] <= '9')
  }

  /** `atoi` skips blanks, takes one sign, and reads digits up to the first other character. */
  lemma AtoiOfDecimal(blanks: string, n: nat, rest: string)
    requires Blank(blanks) && NoDigit(rest)
    ensures Atoi(blanks + (Decimal(n) + rest)) == n
    ensures Atoi(blanks + ("+" + (Decimal(n) + rest))) == n
    ensures Atoi(blanks + ("-" + (Decimal(n) + rest))) == 0 - n
  {
    hide Decimal;
    var d := Decimal(n) + rest;
    assert d[0] == Decimal(n)[0] && [d[0]][0] == d[0];
    assert ['+'][0] == '+' && ['-'][0] == '-';
    LeadOf(blanks, d);
    LeadOf(blanks, "+" + d);
    LeadOf(blanks, "-" + d);
    DigitsOfDecimal(n, rest);
    assert ("+" + d)[1..] == d && ("-" + d)[1..] == d;
  }

  /** Without digits it is 0. */
  lemma AtoiOfNothing(blanks: string, rest: string)
    requires Blank(blanks) && NoDigit(rest) && (rest == "" || (!Blank([rest[0]]) && rest[0] != '+' && rest[0] != '-'))
    ensures Atoi(blanks + rest) == 0
  {
    LeadOf(blanks, rest);
  }

  lemma IndexAt(s: string, c: char, n: nat)
    requires n <= |s| && c !in s[..n] && (n < |s| ==> s[n] == c)
    ensures IndexOf(s, c) == n
  {
  }

  /** One number is both ends of a port range, two with a minus between them are its ends. */
  lemma PortRangeOf(first: string, last: string)
    requires '-' !in first
    ensures PortRange(first) == (Atoi(first), Atoi(first))
    ensures PortRange(first + "-" + last) == (Atoi(first), Atoi(last))
  {
    hide Atoi, IndexOf;
    assert first[..|first|] == first;
    IndexAt(first, '-', |first|);
    var s := first + "-" + last;
    assert s[..|first|] == first && s[|first| + 1..] == last;
    IndexAt(s, '-', |first|);
  }

  /** So the text m-n sets the ports of the last path to m and n, unless they are out of order. */
  lemma PortsLoaded(c: Settings, m: nat, n: nat)
    requires Shaped(c) && c.count > 0
    ensures SetField(c, "port", Decimal(m) + "-" + Decimal(n)) ==
            if m > n then Failed
            else Loaded(c.(paths := c.paths[c.count - 1 := c.paths[c.count - 1].(first := m, last := n)]))
    ensures SetField(c, "port", Decimal(m)) ==
            Loaded(c.(paths := c.paths[c.count - 1 := c.paths[c.count - 1].(first := m, last := m)]))
  {
    hide Atoi, Decimal;
    AtoiOfDecimal("", m, "");
    AtoiOfDecimal("", n, "");
    assert "" + (Decimal(m) + "") == Decimal(m) && "" + (Decimal(n) + "") == Decimal(n);
    PortRangeOf(Decimal(m), Decimal(n));
    hide PortRange;
  }

  /** ... and an MTU is loaded as the number it is when it is from 1024 to 2052. */
  lemma MtuLoaded(c: Settings, n: nat)
    requires Shaped(c)
    ensures SetField(c, "mtu", Decimal(n)) == if 1024 <= n <= 2052 then Loaded(c.(mtu := n)) else Failed
  {
    hide Atoi, Decimal;
    AtoiOfDecimal("", n, "");
    assert "" + (Decimal(n) + "") == Decimal(n);
  }

  // ---------------------------------------------------------------- words

  /** The settings that are words or copied text. */
  lemma WordsLoaded(c: Settings, value: string)
    requires Shaped(c)
    ensures SetField(c, "mode", value) ==
            if value == "server" then Loaded(c.(mode := 1)) else if value == "client" then Loaded(c.(mode := 2)) else Failed
    ensures SetField(c, "route", value) ==
            if value == "yes" then Loaded(c.(route := 1)) else if value == "no" then Loaded(c.(route := 0)) else Failed
    ensures SetField(c, "nat", value) ==
            if value == "yes" then Loaded(c.(masquerade := 1)) else if value == "no" then Loaded(c.(masquerade := 0)) else Failed
    ensures SetField(c, "user", value) == Loaded(c.(user := if |value| < 16 then value else value[..15]))
    ensures SetField(c, "tunif", value) == Loaded(c.(tunif := if |value| < 16 then value else value[..15]))
    ensures SetField(c, "address", value) == Loaded(c.(address := if |value| < 20 then value else value[..19]))
    ensures SetField(c, "address6", value) == Loaded(c.(address6 := if |value| < 64 then value else value[..63]))
    ensures SetField(c, "key", value) == Loaded(c.(key := if |value| <= 127 then value else value[..127]))
  {
    hide SetServer, SetPort, SetMtu;
  }

  /** A server line opens the next path, unless there are 8 or the last one has no port. */
  lemma ServerLoaded(c: Settings, value: string)
    requires Shaped(c)
    ensures SetField(c, "server", value) ==
            if c.count == 8 || (c.count > 0 && c.paths[c.count - 1].first == 0) then Failed
            else Loaded(c.(count := c.count + 1,
                           paths := c.paths[c.count := c.paths[c.count].(server := if |value| < 64 then value else value[..63])]))
  {
  }

  /** Every other key is ignored. */
  lemma OthersIgnored(c: Settings, key: string, value: string)
    requires Shaped(c)
    requires key !in {"user", "mode", "server", "port", "key", "tunif", "mtu", "address", "address6", "route", "nat"}
    ensures SetField(c, key, value) == Loaded(c)
  {
  }

  /** The checks after the file is read. */
  lemma CheckedWrittenOut(c: Settings, daemon: bool, pidfile: string, logfile: string)
    requires Shaped(c)
    ensures var r := Checked(c, daemon, pidfile, logfile);
            && (r.Loaded? <==>
                  ((daemon ==> pidfile != "" && logfile != "") && c.mode != 0 && c.count > 0 && c.key != "" &&
                   c.mtu != 0 && (c.address != "" || c.address6 != "")))
            && (r.Loaded? ==>
                  && r.settings == c.(paths := r.settings.paths, tunif := if c.tunif == "" then "vpn0" else c.tunif)
                  && |r.settings.paths| == |c.paths|
                  && forall i :: 0 <= i < |c.paths| ==>
                       r.settings.paths[i] == if i < c.count && c.paths[i].first == 0
                                              then c.paths[i].(first := 1205, last := 1205) else c.paths[i])
            && !r.OutOfBounds?
  {
  }

  // ---------------------------------------------------------------- lines

  lemma {:induction false} TrimEndOf(s: string, blanks: string)
    requires Blank(blanks) && (s == "" || !Blank([s[|s| - 1]]))
    ensures TrimEnd(s + blanks) == s
    decreases |blanks|
  {
    if blanks == "" {
      assert s + blanks == s;
      assert s != "" ==> [s[|s| - 1]][0] == s[|s| - 1];
    } else {
      var t := s + blanks;
      assert t[..|t| - 1] == s + blanks[..|blanks| - 1] && t[|t| - 1] == blanks[|blanks| - 1];
      TrimEndOf(s, blanks[..|blanks| - 1]);
    }
  }

  /** Text that begins and ends with something else than a blank. */
  predicate Tight(s: string) {
    s != "" && !Blank([s[0]]) && !Blank([s[|s| - 1]])
  }

  lemma TrimmedOf(before: string, s: string, after: string)
    requires Blank(before) && Blank(after) && Tight(s)
    ensures var raw := before + (s + after); TrimEnd(raw[Lead(raw)..]) == s && Lead(raw) == |before|
  {
    assert (s + after)[0] == s[0];
    LeadOf(before, s + after);
    TrimEndOf(s, after);
  }

  /** A line with a key, an equals sign and a value, without blanks around the sign but with any number of them
      around the whole, is that setting. */
  lemma SettingParsed(before: string, key: string, value: string, after: string, outside: char)
    requires Blank(before) && Blank(after) && Tight(key) && (value == "" || Tight(value))
    requires '=' !in key && key[0] != '#'
    ensures ParseLine(before + ((key + "=" + value) + after), outside) == Setting(key, value)
  {
    hide Lead, TrimEnd, IndexOf;
    var s := key + "=" + value;
    assert s[..|key|] == key && s[|key|] == '=' && s[|key| + 1..] == value;
    assert s[0] == key[0] && (value != "" ==> s[|s| - 1] == value[|value| - 1]) && s[|key| - 1] == key[|key| - 1];
    assert !Blank(['=']) && !Blank([s[|s| - 1]]);
    TrimmedOf(before, s, after);
    IndexAt(s, '=', |key|);
    assert [key[|key| - 1]][0] == key[|key| - 1] && (value != "" ==> [value[0]][0] == value[0]);
  }

  /** Blank lines and comments say nothing. */
  lemma NothingParsed(before: string, text: string, after: string, outside: char)
    requires Blank(before) && Blank(after)
    ensures ParseLine(before, outside) == Skipped
    ensures Tight(text) && text[0] == '#' ==> ParseLine(before + (text + after), outside) == Skipped
    ensures Tight(text) && text[0] != '#' && '=' !in text ==> ParseLine(before + (text + after), outside) == Malformed
  {
    hide Lead, TrimEnd, IndexOf;
    assert before + "" == before;
    LeadOf(before, "");
    TrimEndOf("", "");
    assert "" + "" == "";
    if Tight(text) {
      TrimmedOf(before, text, after);
      if '=' !in text {
        assert text[..|text|] == text;
        IndexAt(text, '=', |text|);
      }
    }
  }

  /** A line ends behind its line break, or where the buffer is full. */
  lemma {:induction false} LineTaken(line: string, rest: string, k: nat)
    requires '\n' !in line
    ensures LineLength(line + "\n" + rest, k) == if |line| < k then |line| + 1 else k
  {
    var file := line + "\n" + rest;
    if line != "" && k > 0 {
      assert file[1..] == line[1..] + "\n" + rest && file[0] == line[0];
      LineTaken(line[1..], rest, k - 1);
    }
  }

  /** The file is read line by line, and the first line that is not accepted decides. */
  lemma SettingRead(c: Settings, key: string, value: string, rest: string, outside: char)
    requires Shaped(c) && Tight(key) && (value == "" || Tight(value)) && '=' !in key && key[0] != '#'
    requires var line := key + "=" + value; '\n' !in line && '\0' !in line && |line| < 1023
    ensures var r := SetField(c, key, value);
            ReadFile(c, key + "=" + value + "\n" + rest, outside) ==
            if r.Loaded? then ReadFile(r.settings, rest, outside) else r
  {
    hide SetField, ParseLine, LineLength, IndexOf;
    var line := key + "=" + value;
    var file := line + "\n" + rest;
    LineTaken(line, rest, 1023);
    assert file[..|line| + 1] == line + "\n" == "" + (line + "\n") && file[|line| + 1..] == rest;
    IndexAt(line + "\n", '\0', |line| + 1);
    assert CString(line + "\n") == line + "\n";
    SettingParsed("", key, value, "\n", outside);
  }
}

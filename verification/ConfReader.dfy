/** The loops of the configuration parser. */
module ConfReader {
  import opened Conf

  /** `_strncpy` */
  method StrNCopy(dest: array<char>, src: string)
    requires dest.Length > 0 && '\0' !in src
    modifies dest
    ensures CString(dest[..]) == Truncated(src, dest.Length)
    ensures var n := if |src| < dest.Length then |src| else dest.Length - 1; dest[..n] == src[..n] && dest[n] == '\0'
  {
    var i := 0;
    while i < dest.Length
      invariant 0 <= i <= dest.Length && i <= |src|
      invariant dest[..i] == src[..i]
    {
      if i == |src| {
        dest[i] := '\0';
        break;
      }
      dest[i] := src[i];
      i := i + 1;
    }
    ghost var kept := Truncated(src, dest.Length);
    dest[dest.Length - 1] := '\0';
    assert dest[..|kept|] == kept && dest[|kept|] == '\0';
    FirstOccurrence(dest[..], '\0', |kept|);
  }

  lemma FirstOccurrence(s: string, c: char, n: nat)
    requires n < |s| && s[n] == c && c !in s[..n]
    ensures IndexOf(s, c) == n
  {
  }

  lemma DropLast(s: string, i: nat, j: nat)
    requires i < j <= |s|
    ensures s[i..j][..|s[i..j]| - 1] == s[i..j - 1] && s[i..j][|s[i..j]| - 1] == s[j - 1]
  {
  }

  /** The two trimming loops: where the trimmed line begins and ends. */
  method Trim(raw: string) returns (from: nat, to: nat)
    ensures from == Lead(raw) <= to <= |raw|
    ensures raw[from..to] == TrimEnd(raw[Lead(raw)..])
  {
    from := 0;
    while from < |raw| && IsSpace(raw[from])
      invariant 0 <= from <= |raw| && Lead(raw) == from + Lead(raw[from..])
    {
      assert raw[from..][1..] == raw[from + 1..];
      from := from + 1;
    }
    hide Lead, IsSpace;
    to := |raw|;
    assert raw[from..to] == raw[from..];
    while to > from && IsSpace(raw[to - 1])
      invariant from <= to <= |raw| && TrimEnd(raw[from..]) == TrimEnd(raw[from..to])
    {
      DropLast(raw, from, to);
      to := to - 1;
    }
  }

  /** How a step of the parser ends. */
  datatype Status = Done | Bad | Outside

  /** `conf_t` */
  class Config {
    var mode: int
    var mtu: int
    var route: int
    var masquerade: int
    var user: string
    var key: string
    var tunif: string
    var address: string
    var address6: string
    const paths: array<PathEntry>
    var count: nat

    ghost predicate Valid()
      reads this
    {
      paths.Length == PATH_MAX_COUNT && count <= PATH_MAX_COUNT
    }

    ghost function View(): Settings
      reads this, paths
    {
      Settings(mode, mtu, route, masquerade, user, key, tunif, address, address6, paths[..], count)
    }

    /** The cleared configuration. */
    constructor ()
      ensures Valid() && View() == Cleared() && fresh(paths)
    {
      mode, mtu, route, masquerade, count := 0, 0, 0, 0, 0;
      user, key, tunif, address, address6 := "", "", "", "", "";
      paths := new PathEntry[PATH_MAX_COUNT](i => PathEntry("", 0, 0));
      new;
      assert paths[..] == Cleared().paths;
    }

    /** A server line opens the next path. */
    method AddServer(value: string) returns (r: Status)
      requires Valid()
      modifies this`count, paths
      ensures Valid()
      ensures var s := SetServer(old(View()), value);
              (r.Done? <==> s.Loaded?) && (r.Bad? <==> s.Failed?) && (s.Loaded? ==> View() == s.settings)
    {
      if count >= PATH_MAX_COUNT {
        return Bad;
      }
      if count != 0 && paths[count - 1].first == 0 {
        return Bad;
      }
      paths[count] := paths[count].(server := Truncated(value, 64));
      count := count + 1;
      r := Done;
    }

    /** A port line belongs to the last path. */
    method AddPort(value: string) returns (r: Status)
      requires Valid()
      modifies paths
      ensures Valid()
      ensures var s := SetPort(old(View()), value);
              (r.Done? <==> s.Loaded?) && (r.Bad? <==> s.Failed?) && (s.Loaded? ==> View() == s.settings)
    {
      hide Atoi, IndexOf;
      var p := IndexOf(value, '-');
      var first, last := Atoi(value), Atoi(value);
      if p < |value| {
        first, last := Atoi(value[..p]), Atoi(value[p + 1..]);
      }
      if first > last {
        return Bad;
      }
      if count == 0 {
        return Outside;
      }
      paths[count - 1] := paths[count - 1].(first := first);
      paths[count - 1] := paths[count - 1].(last := last);
      r := Done;
    }

    /** One setting; the configuration is what the specification says when it is accepted. */
    method Set(field: string, value: string) returns (r: Status)
      requires Valid()
      modifies this, paths
      ensures Valid()
      ensures var s := SetField(old(View()), field, value);
              (r.Done? <==> s.Loaded?) && (r.Bad? <==> s.Failed?) && (s.Loaded? ==> View() == s.settings)
    {
      hide Atoi, SetServer, SetPort;
      r := Done;
      if field == "user" {
        user := Truncated(value, 16);
      } else if field == "mode" {
        if value == "server" {
          mode := MODE_SERVER;
        } else if value == "client" {
          mode := MODE_CLIENT;
        } else {
          r := Bad;
        }
      } else if field == "server" {
        r := AddServer(value);
      } else if field == "port" {
        r := AddPort(value);
      } else if field == "key" {
        var klen := |value|;
        if klen > 127 {
          klen := 127;
        }
        key := value[..klen];
      } else if field == "tunif" {
        tunif := Truncated(value, 16);
      } else if field == "mtu" {
        mtu := Atoi(value);
        if mtu < 1024 {
          r := Bad;
        } else if mtu > PAYLOAD_MAX {
          r := Bad;
        }
      } else if field == "address" {
        address := Truncated(value, 20);
      } else if field == "address6" {
        address6 := Truncated(value, 64);
      } else if field == "route" {
        if value == "yes" {
          route := 1;
        } else if value == "no" {
          route := 0;
        } else {
          r := Bad;
        }
      } else if field == "nat" {
        if value == "yes" {
          masquerade := 1;
        } else if value == "no" {
          masquerade := 0;
        } else {
          r := Bad;
        }
      }
    }

    /** `read_conf` on the contents of the file. */
    method Read(file: string, outside: char) returns (r: Status)
      requires Valid()
      modifies this, paths
      ensures Valid()
      ensures var s := ReadFile(old(View()), file, outside);
              (r.Done? <==> s.Loaded?) && (r.Bad? <==> s.Failed?) && (s.Loaded? ==> View() == s.settings)
    {
      hide SetField, IndexOf, TrimEnd, Lead, LineLength, IsSpace;
      r := Done;
      var rest := file;
      ghost var whole := ReadFile(View(), file, outside);
      while rest != ""
        invariant Valid() && r.Done?
        invariant Shaped(View()) && ReadFile(View(), rest, outside) == whole
        decreases |rest|
      {
        var n := LineLength(rest, LINE_MAX - 1);
        r := Line(CString(rest[..n]), outside);
        if !r.Done? {
          return;
        }
        rest := rest[n..];
      }
    }

    /** One line of the file. */
    method Line(raw: string, outside: char) returns (r: Status)
      requires Valid() && Shaped(View())
      modifies this, paths
      ensures Valid() && Shaped(View())
      ensures var s := ReadLine(old(View()), raw, outside);
              (r.Done? <==> s.Loaded?) && (r.Bad? <==> s.Failed?) && (s.Loaded? ==> View() == s.settings)
    {
      hide SetField, TrimEnd, Lead, IsSpace;
      r := Done;
      var from, to := Trim(raw);
      var line := raw[from..to];
      if line == "" || line[0] == '#' {
        return;
      }
      var p := IndexOf(line, '=');
      if p == |line| {
        return Bad;
      }
      var before := if p > 0 then line[p - 1] else if from > 0 then raw[from - 1] else outside;
      if IsSpace(before) || (p + 1 < |line| && IsSpace(line[p + 1])) {
        return Bad;
      }
      r := Set(line[..p], line[p + 1..]);
    }

    /** The checks of `parse_args` once the file is read. */
    method Check(daemon: bool, pidfile: string, logfile: string) returns (ok: bool)
      requires Valid()
      modifies this, paths
      ensures Valid()
      ensures var s := Checked(old(View()), daemon, pidfile, logfile);
              ok == s.Loaded? && (ok ==> View() == s.settings)
    {
      ok := false;
      if daemon && (pidfile == "" || logfile == "") {
        return;
      }
      if mode == 0 || count == 0 {
        return;
      }
      ghost var given := paths[..];
      for i := 0 to count
        invariant Valid() && View() == old(View()).(paths := paths[..])
        invariant paths[..] == WithDefaults(given, i)
      {
        if paths[i].first == 0 {
          paths[i] := paths[i].(first := 1205);
          paths[i] := paths[i].(last := 1205);
        }
      }
      if key == "" {
        return;
      }
      if tunif == "" {
        tunif := "vpn0";
      }
      if mtu == 0 {
        return;
      }
      if address == "" && address6 == "" {
        return;
      }
      ok := true;
    }
  }
}

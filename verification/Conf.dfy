/** The configuration parser on values: lines, settings, the final checks, and what an accepted
    configuration gives the protocol. The loops are in ConfReader.dfy. */
module Conf {
  import opened Base
  import opened Session
  import Codec
  import Protocol

  const LINE_MAX := 1024
  const PATH_MAX_COUNT := 8
  const PAYLOAD_MAX := 2052  // counts the padding field behind the payload as well
  const DEFAULT_PORT := 1205

  const MODE_SERVER := 1
  const MODE_CLIENT := 2

  datatype PathEntry = PathEntry(server: string, first: int, last: int)

  /** The part of `conf_t` that the file determines; a cleared field is 0 or empty. */
  datatype Settings = Settings(
    mode: int, mtu: int, route: int, masquerade: int,
    user: string, key: string, tunif: string, address: string, address6: string,
    paths: seq<PathEntry>, count: nat)

  function Cleared(): Settings {
    Settings(0, 0, 0, 0, "", "", "", "", "", seq(PATH_MAX_COUNT, i => PathEntry("", 0, 0)), 0)
  }

  predicate Shaped(c: Settings) {
    |c.paths| == PATH_MAX_COUNT && c.count <= PATH_MAX_COUNT
  }

  datatype Result =
    | Loaded(settings: Settings)
    | Failed
    | OutOfBounds   // a port before any server: the source then writes in front of the array of paths

  // ---------------------------------------------------------------- C strings

  predicate IsSpace(c: char) {
    c == ' ' || '\t' <= c <= '\r'
  }

  /** How many blanks a string starts with. */
  function Lead(s: string): (n: nat)
    ensures n <= |s|
  {
    if s == "" || !IsSpace(s[0]) then 0 else 1 + Lead(s[1..])
  }

  function TrimEnd(s: string): (t: string)
    ensures |t| <= |s|
  {
    if s == "" || !IsSpace(s[|s| - 1]) then s else TrimEnd(s[..|s| - 1])
  }

  /** The position of the first c, or the length. */
  function IndexOf(s: string, c: char): (n: nat)
    ensures n <= |s|
    ensures c !in s[..n] && (n < |s| ==> s[n] == c)
  {
    if s == "" || s[0] == c then 0
    else
      assert s[1..][..IndexOf(s[1..], c)] == s[..1 + IndexOf(s[1..], c)][1..];
      1 + IndexOf(s[1..], c)
  }

  function CString(s: string): string {
    s[..IndexOf(s, '\0')]
  }

  /** What `_strncpy` leaves in an array of n characters. */
  function Truncated(s: string, n: nat): string {
    if |s| < n then s else s[..if n == 0 then 0 else n - 1]
  }

  function Digits(s: string, n: int): (r: int)
    ensures n >= 0 ==> r >= 0
  {
    if s == "" || !('0' <= s[0] <= '9') then n else Digits(s[1..], n * 10 + (s[0] as int - '0' as int))
  }

  /** `atoi` on numbers within int. */
  function Atoi(s: string): int {
    var t := s[Lead(s)..];
    if t == "" then 0
    else if t[0] == '-' then -Digits(t[1..], 0)
    else if t[0] == '+' then Digits(t[1..], 0)
    else Digits(t, 0)
  }

  /** A number without a minus sign is not negative. */
  lemma AtoiWithoutMinus(s: string)
    requires '-' !in s
    ensures Atoi(s) >= 0
  {
    var t := s[Lead(s)..];
    if t != "" {
      assert t[0] in s;
    }
  }

  // ---------------------------------------------------------------- one setting

  function SetServer(c: Settings, value: string): (r: Result)
    requires Shaped(c)
    ensures r.Loaded? ==> Shaped(r.settings)
  {
    if c.count >= PATH_MAX_COUNT then Failed
    else if c.count != 0 && c.paths[c.count - 1].first == 0 then Failed
    else Loaded(c.(paths := c.paths[c.count := c.paths[c.count].(server := Truncated(value, 64))], count := c.count + 1))
  }

  function PortRange(value: string): (int, int) {
    var p := IndexOf(value, '-');
    if p == |value| then (Atoi(value), Atoi(value)) else (Atoi(value[..p]), Atoi(value[p + 1..]))
  }

  function SetPort(c: Settings, value: string): (r: Result)
    requires Shaped(c)
    ensures r.Loaded? ==> Shaped(r.settings)
  {
    var (first, last) := PortRange(value);
    if first > last then Failed
    else if c.count == 0 then OutOfBounds
    else Loaded(c.(paths := c.paths[c.count - 1 := c.paths[c.count - 1].(first := first, last := last)]))
  }

  function SetMtu(c: Settings, value: string): Result {
    if Atoi(value) < 1024 || Atoi(value) > PAYLOAD_MAX then Failed else Loaded(c.(mtu := Atoi(value)))
  }

  /** The chain of comparisons on the key; an unknown key is ignored. */
  function SetField(c: Settings, key: string, value: string): (r: Result)
    requires Shaped(c)
    ensures r.Loaded? ==> Shaped(r.settings)
  {
    if key == "user" then Loaded(c.(user := Truncated(value, 16)))
    else if key == "mode" then
      if value == "server" then Loaded(c.(mode := MODE_SERVER))
      else if value == "client" then Loaded(c.(mode := MODE_CLIENT))
      else Failed
    else if key == "server" then SetServer(c, value)
    else if key == "port" then SetPort(c, value)
    else if key == "key" then Loaded(c.(key := value[..Min(|value|, 127)]))
    else if key == "tunif" then Loaded(c.(tunif := Truncated(value, 16)))
    else if key == "mtu" then SetMtu(c, value)
    else if key == "address" then Loaded(c.(address := Truncated(value, 20)))
    else if key == "address6" then Loaded(c.(address6 := Truncated(value, 64)))
    else if key == "route" then
      if value == "yes" then Loaded(c.(route := 1)) else if value == "no" then Loaded(c.(route := 0)) else Failed
    else if key == "nat" then
      if value == "yes" then Loaded(c.(masquerade := 1)) else if value == "no" then Loaded(c.(masquerade := 0)) else Failed
    else Loaded(c)
  }

  // ---------------------------------------------------------------- one line, one file

  /** What a line says, whatever was read before it. */
  datatype Line =
    | Skipped                             // blank or a comment
    | Malformed
    | Setting(key: string, value: string)

  /** One line. `outside` is the byte in front of the line buffer, at which the source looks when a line
      starts with the equals sign. */
  function ParseLine(raw: string, outside: char): Line {
    var line := TrimEnd(raw[Lead(raw)..]);
    var p := IndexOf(line, '=');
    if line == "" || line[0] == '#' then Skipped
    else if p == |line| then Malformed
    else
      var before := if p > 0 then line[p - 1] else if Lead(raw) > 0 then raw[Lead(raw) - 1] else outside;
      if IsSpace(before) || (p + 1 < |line| && IsSpace(line[p + 1])) then Malformed
      else Setting(line[..p], line[p + 1..])
  }

  function LoadLine(c: Settings, line: Line): (r: Result)
    requires Shaped(c)
    ensures r.Loaded? ==> Shaped(r.settings)
  {
    match line
    case Skipped => Loaded(c)
    case Malformed => Failed
    case Setting(key, value) => SetField(c, key, value)
  }

  function ReadLine(c: Settings, raw: string, outside: char): (r: Result)
    requires Shaped(c)
    ensures r.Loaded? ==> Shaped(r.settings)
  {
    LoadLine(c, ParseLine(raw, outside))
  }

  /** How many characters `fgets` takes into a buffer of k + 1. */
  function LineLength(file: string, k: nat): (n: nat)
    ensures n <= |file| && n <= k && (file != "" && k > 0 ==> n > 0)
  {
    if file == "" || k == 0 then 0
    else if file[0] == '\n' then 1
    else 1 + LineLength(file[1..], k - 1)
  }

  function ReadFile(c: Settings, file: string, outside: char): (r: Result)
    requires Shaped(c)
    ensures r.Loaded? ==> Shaped(r.settings)
    decreases |file|
  {
    if file == "" then Loaded(c)
    else
      var n := LineLength(file, LINE_MAX - 1);
      var r := ReadLine(c, CString(file[..n]), outside);
      if !r.Loaded? then r else ReadFile(r.settings, file[n..], outside)
  }

  /** The lines of a file, as the reader takes them one after another. */
  function Lines(file: string, outside: char): seq<Line>
    decreases |file|
  {
    if file == "" then []
    else
      var n := LineLength(file, LINE_MAX - 1);
      [ParseLine(CString(file[..n]), outside)] + Lines(file[n..], outside)
  }

  /** The path entries with the default port filled in. */
  function WithDefaults(paths: seq<PathEntry>, n: nat): (r: seq<PathEntry>)
    requires n <= |paths|
    ensures |r| == |paths|
  {
    seq(|paths|, i requires 0 <= i < |paths| =>
      if i < n && paths[i].first == 0 then paths[i].(first := DEFAULT_PORT, last := DEFAULT_PORT) else paths[i])
  }

  /** The checks of `parse_args` after the file is read, on Linux. */
  function Checked(c: Settings, daemon: bool, pidfile: string, logfile: string): Result
    requires Shaped(c)
  {
    if daemon && (pidfile == "" || logfile == "") then Failed
    else if c.mode == 0 || c.count == 0 || c.key == "" || c.mtu == 0 || (c.address == "" && c.address6 == "") then Failed
    else Loaded(c.(paths := WithDefaults(c.paths, c.count), tunif := if c.tunif == "" then "vpn0" else c.tunif))
  }

  /** File and checks together. */
  function Configured(file: string, outside: char, daemon: bool, pidfile: string, logfile: string): Result {
    var r := ReadFile(Cleared(), file, outside);
    if r.Loaded? then Checked(r.settings, daemon, pidfile, logfile) else r
  }

  // ---------------------------------------------------------------- properties

  /** What holds of the settings after every line. */
  ghost predicate Reading(c: Settings) {
    && Shaped(c)
    && (c.mode == 0 || c.mode == MODE_SERVER || c.mode == MODE_CLIENT)
    && (c.mtu == 0 || 1024 <= c.mtu <= PAYLOAD_MAX)
    && (forall i :: 0 <= i < PATH_MAX_COUNT ==> 0 <= c.paths[i].first <= c.paths[i].last)
    && (forall i :: 0 <= i < c.count - 1 ==> 0 < c.paths[i].first)
  }

  lemma PortRangeNatural(value: string)
    ensures PortRange(value).0 >= 0
  {
    var p := IndexOf(value, '-');
    AtoiWithoutMinus(value[..p]);
    assert value[..|value|] == value;
  }

  lemma SetPortKeeps(c: Settings, value: string)
    requires Reading(c)
    ensures SetPort(c, value).Loaded? ==> Reading(SetPort(c, value).settings)
  {
    hide PortRange;
    PortRangeNatural(value);
  }

  lemma SetServerKeeps(c: Settings, value: string)
    requires Reading(c)
    ensures SetServer(c, value).Loaded? ==> Reading(SetServer(c, value).settings)
  {
  }

  lemma SetFieldKeeps(c: Settings, key: string, value: string)
    requires Reading(c)
    ensures SetField(c, key, value).Loaded? ==> Reading(SetField(c, key, value).settings)
  {
    hide SetPort, SetServer, Atoi;
    SetPortKeeps(c, value);
    SetServerKeeps(c, value);
  }

  lemma {:induction false} ReadFileKeeps(c: Settings, file: string, outside: char)
    requires Reading(c)
    ensures ReadFile(c, file, outside).Loaded? ==> Reading(ReadFile(c, file, outside).settings)
    decreases |file|
  {
    hide SetField, Reading, LineLength, CString, TrimEnd, Lead;
    if file != "" {
      var n := LineLength(file, LINE_MAX - 1);
      var raw := CString(file[..n]);
      ReadLineKeeps(c, raw, outside);
      var r := ReadLine(c, raw, outside);
      if r.Loaded? {
        ReadFileKeeps(r.settings, file[n..], outside);
      }
    }
  }

  lemma ReadLineKeeps(c: Settings, raw: string, outside: char)
    requires Reading(c)
    ensures Shaped(c)
    ensures ReadLine(c, raw, outside).Loaded? ==> Reading(ReadLine(c, raw, outside).settings)
  {
    hide SetField, ParseLine;
    match ParseLine(raw, outside)
    case Setting(key, value) => SetFieldKeeps(c, key, value);
    case _ =>
  }

  // ---------------------------------------------------------------- the write in front of the paths

  /** A port setting whose range is in order. */
  predicate OrderedPort(line: Line) {
    line.Setting? && line.key == "port" && PortRange(line.value).0 <= PortRange(line.value).1
  }

  predicate ServerLine(line: Line) {
    line.Setting? && line.key == "server"
  }

  /** A line that would be accepted as the first of a file and opens no path. */
  predicate Harmless(line: Line) {
    LoadLine(Cleared(), line).Loaded? && !ServerLine(line)
  }

  /** One line writes in front of the array of paths exactly when it is an ordered port setting and there is
      no path yet. */
  lemma OutOfBoundsLine(c: Settings, line: Line)
    requires Shaped(c)
    ensures LoadLine(c, line).OutOfBounds? <==> c.count == 0 && OrderedPort(line)
  {
    hide PortRange, Atoi;
  }

  /** Before the first path, whether a line is accepted depends on the line alone, and only a server line
      opens a path. */
  lemma PathlessLine(c: Settings, line: Line)
    requires Shaped(c) && c.count == 0
    ensures LoadLine(c, line).Loaded? && !ServerLine(line) <==> Harmless(line)
    ensures LoadLine(c, line).Loaded? ==> (LoadLine(c, line).settings.count > 0 <==> ServerLine(line))
  {
    hide PortRange, Atoi;
  }

  /** The file's first trouble is an ordered port line: all lines before it are harmless. */
  predicate PortFirst(lines: seq<Line>) {
    exists k :: 0 <= k < |lines| && OrderedPort(lines[k]) && forall i :: 0 <= i < k ==> Harmless(lines[i])
  }

  lemma PortFirstStep(lines: seq<Line>)
    requires lines != []
    ensures PortFirst(lines) <==> OrderedPort(lines[0]) || (Harmless(lines[0]) && PortFirst(lines[1..]))
  {
    hide OrderedPort, Harmless;
    var rest := lines[1..];
    if PortFirst(lines) && !OrderedPort(lines[0]) {
      var k :| 0 <= k < |lines| && OrderedPort(lines[k]) && forall i :: 0 <= i < k ==> Harmless(lines[i]);
      assert lines[k] == rest[k - 1] && forall i :: 0 <= i < k - 1 ==> rest[i] == lines[i + 1];
    }
    if Harmless(lines[0]) && PortFirst(rest) {
      var k :| 0 <= k < |rest| && OrderedPort(rest[k]) && forall i :: 0 <= i < k ==> Harmless(rest[i]);
      assert lines[k + 1] == rest[k] && forall i :: 0 < i < k + 1 ==> lines[i] == rest[i - 1];
    }
  }

  /** Once there is a path, no file writes outside. */
  lemma {:induction false} PathsInBounds(c: Settings, file: string, outside: char)
    requires Shaped(c) && c.count > 0
    ensures !ReadFile(c, file, outside).OutOfBounds?
    decreases |file|
  {
    hide LoadLine, OrderedPort, ParseLine, LineLength, CString;
    if file != "" {
      var n := LineLength(file, LINE_MAX - 1);
      var line := ParseLine(CString(file[..n]), outside);
      OutOfBoundsLine(c, line);
      CountGrows(c, line);
      if LoadLine(c, line).Loaded? {
        PathsInBounds(LoadLine(c, line).settings, file[n..], outside);
      }
    }
  }

  lemma CountGrows(c: Settings, line: Line)
    requires Shaped(c)
    ensures LoadLine(c, line).Loaded? ==> LoadLine(c, line).settings.count >= c.count
  {
    hide PortRange, Atoi;
  }

  /** For every file: the reader writes in front of the array of paths exactly when an ordered port line
      comes after nothing but accepted lines, none of them a server line. */
  lemma {:induction false} OutOfBoundsFile(c: Settings, file: string, outside: char)
    requires Shaped(c) && c.count == 0
    ensures ReadFile(c, file, outside).OutOfBounds? <==> PortFirst(Lines(file, outside))
    decreases |file|
  {
    hide LoadLine, OrderedPort, ParseLine, LineLength, CString, PortFirst, Harmless, ServerLine;
    if file == "" {
      NoLines();
    } else {
      var n := LineLength(file, LINE_MAX - 1);
      var line := ParseLine(CString(file[..n]), outside);
      var r := LoadLine(c, line);
      assert Lines(file, outside)[1..] == Lines(file[n..], outside);
      PortFirstStep(Lines(file, outside));
      OutOfBoundsLine(c, line);
      PathlessLine(c, line);
      if r.Loaded? {
        if ServerLine(line) {
          PathsInBounds(r.settings, file[n..], outside);
        } else {
          OutOfBoundsFile(r.settings, file[n..], outside);
        }
      }
    }
  }

  lemma NoLines()
    ensures !PortFirst([])
  {
  }

  lemma PortLine(outside: char)
    ensures CString("port=1") == "port=1" && ParseLine("port=1", outside) == Setting("port", "1")
  {
    hide IndexOf;
    var file := "port=1";
    assert CString(file) == file;
    assert file[4] == '=' && IndexOf(file, '=') == 4;
    assert file[..4] == "port" && file[5..] == "1";
  }

  /** The shortest such file. */
  lemma PortOnly(outside: char)
    ensures ReadFile(Cleared(), "port=1", outside) == OutOfBounds
  {
    hide LineLength, IndexOf, Atoi, ParseLine, CString;
    var file := "port=1";
    OneLine(file, LINE_MAX - 1);
    assert file[..6] == file;
    PortLine(outside);
    assert '-' !in "1";
  }

  /** A file without line breaks that fits the buffer is one line. */
  lemma {:induction false} OneLine(file: string, k: nat)
    requires '\n' !in file && |file| <= k
    ensures LineLength(file, k) == |file|
  {
    if file != "" {
      OneLine(file[1..], k - 1);
    }
  }

  /** The configured paths as the protocol takes them; hosts are numbered by their names. */
  function Paths(c: Settings, resolve: string -> nat): (conf: seq<PathConf>)
    requires c.count <= |c.paths| && forall i :: 0 <= i < c.count ==> c.paths[i].first <= c.paths[i].last
    ensures |conf| == c.count
  {
    seq(c.count, i requires 0 <= i < c.count =>
      PathConf(resolve(c.paths[i].server), c.paths[i].first, c.paths[i].last - c.paths[i].first))
  }

  /** For every file: if it and the checks are passed, there are 1 to 8 paths, each with a positive port range
      that is not empty, the mode is set, and the MTU is between 1024 and 2052. */
  lemma AcceptedConfiguration(file: string, outside: char, daemon: bool, pidfile: string, logfile: string)
    requires Configured(file, outside, daemon, pidfile, logfile).Loaded?
    ensures var c := Configured(file, outside, daemon, pidfile, logfile).settings;
            && 1 <= c.count <= PATH_MAX_COUNT == |c.paths|
            && (c.mode == MODE_SERVER || c.mode == MODE_CLIENT)
            && 1024 <= c.mtu <= PAYLOAD_MAX
            && c.key != ""
            && forall i :: 0 <= i < c.count ==> 0 < c.paths[i].first <= c.paths[i].last
  {
    hide ReadFile;
    assert Reading(Cleared());
    ReadFileKeeps(Cleared(), file, outside);
  }

  /** Two paths of a configuration that cannot be told apart by address: one host, overlapping ports. */
  predicate Clash(c: Settings, resolve: string -> nat, i: nat, j: nat)
    requires i < |c.paths| && j < |c.paths|
  {
    resolve(c.paths[i].server) == resolve(c.paths[j].server) &&
    c.paths[i].first <= c.paths[j].last && c.paths[j].first <= c.paths[i].last
  }

  /** What the protocol asks of its setup is met by two accepted configurations, with the paths of the
      client's, exactly when the library is lawful, both MTUs fit the packet buffer, and no two paths clash. */
  lemma AcceptedIsValidSetup(c: Settings, s: Settings, lib: Codec.Library, resolve: string -> nat,
                             clientSkew: nat, serverSkew: nat,
                             file: string, outside: char, daemon: bool, pidfile: string, logfile: string,
                             file': string, outside': char, daemon': bool, pidfile': string, logfile': string)
    requires Configured(file, outside, daemon, pidfile, logfile) == Loaded(c)
    requires Configured(file', outside', daemon', pidfile', logfile') == Loaded(s)
    ensures 1024 <= c.mtu && 1024 <= s.mtu
    ensures c.count <= |c.paths| && forall i :: 0 <= i < c.count ==> 0 < c.paths[i].first <= c.paths[i].last
    ensures Protocol.ValidSetup(Protocol.Setup(lib, Paths(c, resolve), c.mtu, s.mtu, clientSkew, serverSkew)) <==>
            && Codec.Lawful(lib) && c.mtu <= Codec.CAPACITY && s.mtu <= Codec.CAPACITY
            && forall i, j :: 0 <= i < j < c.count ==> !Clash(c, resolve, i, j)
  {
    hide Configured, Codec.Lawful;
    AcceptedConfiguration(file, outside, daemon, pidfile, logfile);
    AcceptedConfiguration(file', outside', daemon', pidfile', logfile');
    DistinctEndpoints(c, resolve);
  }

  lemma DistinctEndpoints(c: Settings, resolve: string -> nat)
    requires c.count <= |c.paths| && forall i :: 0 <= i < c.count ==> c.paths[i].first <= c.paths[i].last
    ensures var conf := Paths(c, resolve);
            (forall i, j :: 0 <= i < j < c.count ==> !Clash(c, resolve, i, j)) <==>
            forall p: nat, q: nat, i: nat, j: nat {:trigger Endpoint(conf, p, i), Endpoint(conf, q, j)} ::
              p < q < |conf| && i <= conf[p].portRange && j <= conf[q].portRange ==>
                Endpoint(conf, p, i) != Endpoint(conf, q, j)
  {
    var conf := Paths(c, resolve);
    forall p: nat, q: nat | p < q < c.count && Clash(c, resolve, p, q)
      ensures exists i: nat, j: nat ::
                i <= conf[p].portRange && j <= conf[q].portRange && Endpoint(conf, p, i) == Endpoint(conf, q, j)
    {
      var port := if c.paths[p].first <= c.paths[q].first then c.paths[q].first else c.paths[p].first;
      assert Endpoint(conf, p, port - c.paths[p].first) == Endpoint(conf, q, port - c.paths[q].first);
    }
    forall p: nat, q: nat, i: nat, j: nat
      | p < q < |conf| && i <= conf[p].portRange && j <= conf[q].portRange && Endpoint(conf, p, i) == Endpoint(conf, q, j)
      ensures Clash(c, resolve, p, q)
    {
    }
  }
}

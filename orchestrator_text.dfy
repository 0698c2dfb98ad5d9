/** The self-contained text processing of appwrite_lab/_orchestrator.py:
    the error message `run_cmd` raises, the version <-> template file name
    mapping, the split of line-delimited `ps` output, the host port found in
    a container's `Ports` string, and the choice of container backend. */
module OrchestratorText {
  import opened Wrappers
  import opened PyStr

  // ---------------------------------------------------------------------------
  // run_cmd: the message of the OrchestratorError raised on a non-zero exit
  // ---------------------------------------------------------------------------

  const ErrorPrefix: string := "An error occured running a command: "
  const PlaywrightMarker: string := "PlaywrightAutomationError:"
  const OrchestratorMarker: string := "OrchestratorError:"

  /** A stderr line that names one of the project's own exception classes. */
  predicate HasMarker(line: string)
  {
    Contains(line, PlaywrightMarker) || Contains(line, OrchestratorMarker)
  }

  /** Every marked line holds a colon, so the colon test in `run_cmd` always passes. */
  lemma MarkedLineHasColon(line: string)
    requires HasMarker(line)
    ensures ':' in line
  {
    if Contains(line, PlaywrightMarker) {
      var i := ContainsWitness(line, PlaywrightMarker);
      assert line[i + 25] == line[i..i + 26][25] == ':';
    } else {
      var i := ContainsWitness(line, OrchestratorMarker);
      assert line[i + 17] == line[i..i + 18][17] == ':';
    }
  }

  /** The index of the bottom-most marked line. */
  function LastMarked(lines: seq<string>): (r: Option<nat>)
    ensures r.Some? ==> r.value < |lines| && HasMarker(lines[r.value])
    ensures r.Some? ==> forall j :: r.value < j < |lines| ==> !HasMarker(lines[j])
    ensures r.None? ==> forall j :: 0 <= j < |lines| ==> !HasMarker(lines[j])
  {
    if lines == [] then None
    else if HasMarker(lines[|lines| - 1]) then Some(|lines| - 1)
    else LastMarked(lines[..|lines| - 1])
  }

  /** A marked line below which no line is marked is the bottom-most marked line. */
  lemma {:induction false} LastMarkedAt(lines: seq<string>, i: nat)
    requires i < |lines| && HasMarker(lines[i])
    requires forall j :: i < j < |lines| ==> !HasMarker(lines[j])
    ensures LastMarked(lines) == Some(i)
  {
    if i < |lines| - 1 {
      LastMarkedAt(lines[..|lines| - 1], i);
    }
  }

  /** What `run_cmd` reports from a failing command's stderr: the text after the first colon
      of the bottom-most marked line, stripped, or else the whole stripped stderr. */
  function ExtractedError(stderr: string): string
  {
    var t := Strip(stderr);
    if t == "" then t else MarkedMessage(t, Split(t, '\n'))
  }

  /** The message taken from the lines of the stripped stderr `t`: what follows the first
      colon of the bottom-most marked line, stripped, or `t` itself when no line is marked. */
  function MarkedMessage(t: string, lines: seq<string>): string
  {
    match LastMarked(lines)
    case None => t
    case Some(i) => if ':' in lines[i] then Strip(AfterFirst(lines[i], ':')) else t
  }

  /** The message of the OrchestratorError that `run_cmd` raises for a non-zero exit. */
  method RunCmdErrorMessage(stderr: string) returns (msg: string)
    ensures msg == ErrorPrefix + ExtractedError(stderr)
  {
    var errorMsg := Strip(stderr);
    if errorMsg != "" {
      ExtractedErrorOfLines(stderr);
      errorMsg := ScanLines(errorMsg, Split(errorMsg, '\n'));
    }
    msg := ErrorPrefix + errorMsg;
  }

  /** The loop of `run_cmd` over the lines of the stripped stderr `t`: scanned from the
      bottom up, stopping at the first marked line. */
  method ScanLines(t: string, lines: seq<string>) returns (errorMsg: string)
    ensures errorMsg == MarkedMessage(t, lines)
  {
    errorMsg := t;
    var i := |lines|;
    while i > 0
      invariant 0 <= i <= |lines|
      invariant forall j :: i <= j < |lines| ==> !HasMarker(lines[j])
    {
      i := i - 1;
      var line := lines[i];
      if HasMarker(line) {
        LastMarkedAt(lines, i);
        if ':' in line {
          errorMsg := Strip(AfterFirst(line, ':'));
        }
        return;
      }
    }
  }

  /** An exception of the project raised in the child process with message `m`
      (the traceback's last line is `<module path>.OrchestratorError: m`) surfaces as
      exactly `m`, whatever the traceback above it holds. */
  lemma ExtractedErrorOfTraceback(traceback: string, cls: string, m: string)
    requires ':' !in cls && '\n' !in cls && cls != [] && !IsSpace(cls[0])
    requires EndsWith(cls, "OrchestratorError") || EndsWith(cls, "PlaywrightAutomationError")
    requires m != [] && '\n' !in m && !IsSpace(m[0]) && !IsSpace(m[|m| - 1])
    ensures ExtractedError(traceback + "\n" + cls + ": " + m) == m
  {
    var last := cls + ": " + m;
    ExceptionLine(cls, m);
    var pre := StripKeepsLastLine(traceback, last);
    var lines := LastSegment(pre, last);
    ConcatAssoc(traceback + "\n", cls, ": ", m);
    assert Strip(traceback + "\n" + last) != "" by {
      assert |pre + last| >= |last| > 0;
    }
    ExtractedErrorOfLines(traceback + "\n" + last);
    MarkedFromLastLine(Strip(traceback + "\n" + last), lines);
    StripSpaceLead(m);
  }

  lemma ConcatAssoc(a: string, b: string, c: string, d: string)
    ensures a + b + c + d == a + (b + c + d)
  {
  }

  /** Stripping a single leading space off text with no space at either end. */
  lemma StripSpaceLead(m: string)
    requires m != [] && !IsSpace(m[0]) && !IsSpace(m[|m| - 1])
    ensures Strip(" " + m) == m
  {
    assert (" " + m)[1..] == m;
    RStripKeeps(m);
  }

  /** When the bottom line of the stripped stderr is marked, it is the one reported. */
  lemma MarkedFromLastLine(t: string, lines: seq<string>)
    requires lines != [] && HasMarker(lines[|lines| - 1]) && ':' in lines[|lines| - 1]
    ensures MarkedMessage(t, lines) == Strip(AfterFirst(lines[|lines| - 1], ':'))
  {
    LastMarkedAt(lines, |lines| - 1);
  }

  /** For a stderr with some non-space text, the message comes from its lines. */
  lemma ExtractedErrorOfLines(stderr: string)
    requires Strip(stderr) != ""
    ensures ExtractedError(stderr) == MarkedMessage(Strip(stderr), Split(Strip(stderr), '\n'))
  {
  }

  /** The last line `<cls>: <m>` of a traceback is marked, holds no newline, and what
      follows its first colon is " " + m. */
  lemma ExceptionLine(cls: string, m: string)
    requires ':' !in cls && '\n' !in cls
    requires EndsWith(cls, "OrchestratorError") || EndsWith(cls, "PlaywrightAutomationError")
    requires '\n' !in m
    ensures var last := cls + ": " + m;
      && '\n' !in last && HasMarker(last) && ':' in last && AfterFirst(last, ':') == " " + m
  {
    var last := cls + ": " + m;
    forall k | 0 <= k < |last| ensures last[k] != '\n' {
      if k < |cls| { assert last[k] == cls[k]; }
      else if k >= |cls| + 2 { assert last[k] == m[k - |cls| - 2]; }
    }
    if EndsWith(cls, "OrchestratorError") {
      assert last[|cls| - 17..|cls| + 1] == OrchestratorMarker;
      ContainsAt(last, OrchestratorMarker, |cls| - 17);
    } else {
      assert last[|cls| - 25..|cls| + 1] == PlaywrightMarker;
      ContainsAt(last, PlaywrightMarker, |cls| - 25);
    }
    assert last[..|cls|] == cls && last[|cls|] == ':';
    assert FirstIndex(last, ':') == Some(|cls|);
    assert last[|cls| + 1..] == " " + m;
  }

  /** Text that is empty or ends in a newline, followed by one line: that line is the last. */
  lemma LastSegment(pre: string, last: string) returns (lines: seq<string>)
    requires '\n' !in last
    requires pre == [] || pre[|pre| - 1] == '\n'
    ensures lines == Split(pre + last, '\n') && lines[|lines| - 1] == last
  {
    lines := Split(pre + last, '\n');
    SplitNoSep(last, '\n');
    if pre == [] {
      assert pre + last == last;
    } else {
      var init := pre[..|pre| - 1];
      assert pre + last == init + ['\n'] + last;
      SplitConcat(init, '\n', last);
      assert lines == Split(init, '\n') + [last];
    }
  }

  /** Stripping `x + "\n" + y`, where `y` ends in a non-space character, keeps `y` whole
      and leaves in front of it either nothing or text ending in a newline. */
  lemma StripKeepsLastLine(x: string, y: string) returns (pre: string)
    requires y != [] && !IsSpace(y[0]) && !IsSpace(y[|y| - 1])
    ensures Strip(x + "\n" + y) == pre + y && (pre == [] || pre[|pre| - 1] == '\n')
  {
    var s := x + "\n" + y;
    var start := |x| + 1;
    assert s[start..] == y;
    var k := LStripStart(s, start);
    var l := s[k..];
    assert l[|l| - 1] == y[|y| - 1];
    RStripKeeps(l);
    pre := s[k..start];
    assert l == pre + y;
    assert pre != [] ==> pre[|pre| - 1] == s[start - 1];
  }

  lemma RStripKeeps(l: string)
    requires l != [] && !IsSpace(l[|l| - 1])
    ensures RStrip(l) == l
  {
  }

  /** `LStrip` drops at most the characters before a given non-space character. */
  lemma LStripStart(s: string, p: nat) returns (k: nat)
    requires p < |s| && !IsSpace(s[p])
    ensures k == |s| - |LStrip(s)| && k <= p && LStrip(s) == s[k..]
  {
    k := |s| - |LStrip(s)|;
  }

  // ---------------------------------------------------------------------------
  // Template files: version "1.7.4" <-> docker_compose_1_7_4.yml
  // ---------------------------------------------------------------------------

  const TemplatePrefix: string := "docker_compose_"

  /** The template file that `deploy_appwrite_lab` looks for: dots become underscores. */
  function TemplateFileName(version: string): string
  {
    TemplatePrefix + ReplaceChar(version, '.', '_') + ".yml"
  }

  /** `get_template_versions` for one template path: the file name up to its first dot,
      without the `docker_compose_` prefix, underscores turned back into dots. */
  function VersionOfTemplate(path: string): string
  {
    var segments := Split(path, '/');
    var fileName := segments[|segments| - 1];
    ReplaceChar(RemovePrefix(Split(fileName, '.')[0], TemplatePrefix), '_', '.')
  }

  /** `get_template_versions`: a version per `*.yml` path, in the order the directory
      listing gives them; a missing templates directory raises an OrchestratorError. */
  function TemplateVersions(templatesDir: string, dirExists: bool, ymlPaths: seq<string>): (r: Result<seq<string>, string>)
    ensures r.Err? <==> !dirExists
    ensures r.Err? ==> r.error == "Templates directory not found: " + templatesDir + ". This should not happen."
    ensures r.Ok? ==> |r.value| == |ymlPaths|
    ensures r.Ok? ==> forall i :: 0 <= i < |ymlPaths| ==> r.value[i] == VersionOfTemplate(ymlPaths[i])
  {
    if !dirExists then Err("Templates directory not found: " + templatesDir + ". This should not happen.")
    else Ok(seq(|ymlPaths|, i requires 0 <= i < |ymlPaths| => VersionOfTemplate(ymlPaths[i])))
  }

  /** The last `/`-segment of `dir/name` is `name` when `name` holds no `/`. */
  lemma LastPathSegment(dir: string, name: string)
    requires '/' !in name
    ensures var segments := Split(dir + "/" + name, '/'); segments[|segments| - 1] == name
  {
    SplitConcat(dir, '/', name);
    SplitNoSep(name, '/');
  }

  /** The stem of a template file name holds neither `/` nor `.`. */
  lemma TemplateStem(version: string)
    requires '/' !in version
    ensures var stem := TemplatePrefix + ReplaceChar(version, '.', '_');
      && '/' !in stem && '.' !in stem
      && TemplateFileName(version) == stem + ['.'] + "yml"
  {
    var converted := ReplaceChar(version, '.', '_');
    var stem := TemplatePrefix + converted;
    forall k | 0 <= k < |stem| ensures stem[k] != '/' && stem[k] != '.' {
      if k >= |TemplatePrefix| {
        assert stem[k] == converted[k - |TemplatePrefix|];
      }
    }
  }

  /** A version without `_` or `/` survives the round trip through its template file name,
      wherever the templates directory is. */
  lemma TemplateRoundTrip(dir: string, version: string)
    requires '_' !in version && '/' !in version
    ensures VersionOfTemplate(dir + "/" + TemplateFileName(version)) == version
  {
    var converted := ReplaceChar(version, '.', '_');
    var stem := TemplatePrefix + converted;
    var name := TemplateFileName(version);
    TemplateStem(version);
    assert '/' !in name by {
      assert name == stem + "." + "yml";
    }
    LastPathSegment(dir, name);
    SplitPrefix(stem, '.', "yml");
    assert Split(name, '.')[0] == stem;
    assert RemovePrefix(stem, TemplatePrefix) == converted;
    assert ReplaceChar(converted, '_', '.') == version;
  }

  /** Every version that `deploy_appwrite_lab` accepts (its template file exists) and that
      has no `_` or `/` is among those `get_template_versions` lists. */
  lemma DeployableVersionListed(dir: string, ymlPaths: seq<string>, version: string)
    requires '_' !in version && '/' !in version
    requires dir + "/" + TemplateFileName(version) in ymlPaths
    ensures var r := TemplateVersions(dir, true, ymlPaths); r.Ok? && version in r.value
  {
    var i :| 0 <= i < |ymlPaths| && ymlPaths[i] == dir + "/" + TemplateFileName(version);
    TemplateRoundTrip(dir, version);
    assert TemplateVersions(dir, true, ymlPaths).value[i] == version;
  }

  // ---------------------------------------------------------------------------
  // _stdout_to_json: one JSON record per non-blank line of `ps` output
  // ---------------------------------------------------------------------------

  /** The characters at which Python's `str.splitlines` breaks a line. */
  predicate IsLineBoundary(c: char)
  {
    c == '\n' || c == '\r' || c == '\U{000B}' || c == '\U{000C}' || c == '\U{001C}' || c == '\U{001D}'
    || c == '\U{001E}' || c == '\U{0085}' || c == '\U{2028}' || c == '\U{2029}'
  }

  function NormalizeBoundaries(s: string): (r: string)
    ensures |r| == |s|
    ensures forall i :: 0 <= i < |s| ==> r[i] == if IsLineBoundary(s[i]) then '\n' else s[i]
  {
    seq(|s|, i requires 0 <= i < |s| => if IsLineBoundary(s[i]) then '\n' else s[i])
  }

  /** The lines of `s`, breaking at every line boundary character. This differs from
      `str.splitlines` only by blank lines (a `\r\n` pair, a trailing boundary), and those
      are dropped by the filter that follows it. */
  function Lines(s: string): seq<string>
  {
    Split(NormalizeBoundaries(s), '\n')
  }

  function NonBlank(lines: seq<string>): (r: seq<string>)
    ensures |r| <= |lines|
    ensures forall i :: 0 <= i < |r| ==> !IsBlank(r[i])
    ensures forall l :: l in r <==> l in lines && !IsBlank(l)
  {
    if lines == [] then []
    else if IsBlank(lines[0]) then NonBlank(lines[1..])
    else [lines[0]] + NonBlank(lines[1..])
  }

  /** One more line adds itself to the non-blank lines unless it is blank: the non-blank
      lines are exactly the lines that are not blank, in their order. */
  lemma {:induction false} NonBlankSnoc(lines: seq<string>, l: string)
    ensures NonBlank(lines + [l]) == NonBlank(lines) + (if IsBlank(l) then [] else [l])
  {
    if lines == [] {
      assert (lines + [l])[1..] == [];
    } else {
      assert (lines + [l])[1..] == lines[1..] + [l];
      NonBlankSnoc(lines[1..], l);
    }
  }

  /** The lines `_stdout_to_json` hands to `json.loads`. */
  function RecordLines(stdout: string): seq<string>
  {
    NonBlank(Lines(Strip(stdout)))
  }

  /** `_stdout_to_json` with `json.loads` as the parameter `parse`: a record per non-blank
      line, in order; the first line that does not parse raises (it is not skipped). */
  function StdoutToJson<R>(stdout: string, parse: string -> Option<R>): (r: Result<seq<R>, string>)
    ensures r.Ok? ==> |r.value| == |RecordLines(stdout)|
    ensures r.Ok? ==> forall i :: 0 <= i < |r.value| ==> parse(RecordLines(stdout)[i]) == Some(r.value[i])
    ensures r.Err? ==> r.error in RecordLines(stdout) && parse(r.error).None?
    ensures r.Err? ==> var lines := RecordLines(stdout);
      exists i :: 0 <= i < |lines| && lines[i] == r.error && forall j :: 0 <= j < i ==> parse(lines[j]).Some?
  {
    ParseAll(RecordLines(stdout), parse)
  }

  function ParseAll<R>(lines: seq<string>, parse: string -> Option<R>): (r: Result<seq<R>, string>)
    ensures r.Ok? ==> |r.value| == |lines|
    ensures r.Ok? ==> forall i :: 0 <= i < |r.value| ==> parse(lines[i]) == Some(r.value[i])
    ensures r.Err? ==> r.error in lines && parse(r.error).None?
    ensures r.Err? ==> exists i :: 0 <= i < |lines| && lines[i] == r.error && forall j :: 0 <= j < i ==> parse(lines[j]).Some?
  {
    if lines == [] then Ok([])
    else match parse(lines[0])
      case None => Err(lines[0])
      case Some(x) =>
        match ParseAll(lines[1..], parse)
        case Err(e) => Err(e)
        case Ok(xs) => Ok([x] + xs)
  }

  /** Records printed one per line (none holding a line boundary or spaces at its ends)
      come back as exactly those lines. */
  lemma RecordLinesOfPrinted(records: seq<string>)
    requires records != []
    requires forall i :: 0 <= i < |records| ==>
      records[i] != [] && !IsSpace(records[i][0]) && !IsSpace(records[i][|records[i]| - 1])
    requires forall i, k :: 0 <= i < |records| && 0 <= k < |records[i]| ==> !IsLineBoundary(records[i][k])
    ensures RecordLines(Join("\n", records)) == records
  {
    var out := Join("\n", records);
    JoinEnds(records);
    StripTrimmed(out);
    forall i | 0 <= i < |records| ensures '\n' !in records[i] {
      assert forall k :: 0 <= k < |records[i]| ==> records[i][k] != '\n';
    }
    NormalizeJoin(records);
    SplitJoin(records, '\n');
    NonBlankKeeps(records);
  }

  /** The joined text starts with the first record's first character and ends with the
      last record's last character. */
  lemma {:induction false} JoinEnds(records: seq<string>)
    requires records != [] && forall i :: 0 <= i < |records| ==> records[i] != []
    ensures var out := Join("\n", records);
      out != [] && out[0] == records[0][0] && out[|out| - 1] == records[|records| - 1][|records[|records| - 1]| - 1]
  {
    if |records| > 1 {
      JoinEnds(records[1..]);
    }
  }

  lemma {:induction false} NormalizeJoin(records: seq<string>)
    requires records != []
    requires forall i, k :: 0 <= i < |records| && 0 <= k < |records[i]| ==> !IsLineBoundary(records[i][k])
    ensures NormalizeBoundaries(Join("\n", records)) == Join("\n", records)
  {
    if |records| > 1 {
      NormalizeJoin(records[1..]);
      var tail := Join("\n", records[1..]);
      var out := Join("\n", records);
      assert out == records[0] + "\n" + tail;
      forall k | 0 <= k < |out| ensures NormalizeBoundaries(out)[k] == out[k] {
        if k < |records[0]| {
          assert out[k] == records[0][k];
        } else if k > |records[0]| {
          assert out[k] == tail[k - |records[0]| - 1];
        }
      }
    }
  }

  lemma {:induction false} NonBlankKeeps(lines: seq<string>)
    requires forall i :: 0 <= i < |lines| ==> lines[i] != [] && !IsSpace(lines[i][0])
    ensures NonBlank(lines) == lines
  {
    if lines != [] {
      NonBlankKeeps(lines[1..]);
    }
  }

  // ---------------------------------------------------------------------------
  // extract_port_from_pod_info: the leftmost `:<digits>->80/tcp` in `Ports`
  // ---------------------------------------------------------------------------

  const PortSuffix: string := "->80/tcp"

  /** The regular expression `:(\d+)->80/tcp` matches at `i`, its digits ending at `j`. */
  predicate PortMatch(s: string, i: nat, j: nat)
  {
    i + 1 < j <= |s| && s[i] == ':' && AllDigits(s[i + 1..j]) && OccursAt(s, PortSuffix, j)
  }

  /** The end of the run of digits starting at `k`. */
  function DigitRunEnd(s: string, k: nat): (j: nat)
    requires k <= |s|
    ensures k <= j <= |s| && AllDigits(s[k..j])
    ensures j < |s| ==> !IsDigit(s[j])
    decreases |s| - k
  {
    if k < |s| && IsDigit(s[k]) then
      var j := DigitRunEnd(s, k + 1);
      assert s[k..j] == [s[k]] + s[k + 1..j];
      j
    else k
  }

  /** Leftmost match at or after position `from`, as `re.search` finds it. */
  function FindPort(s: string, from: nat): (r: Option<(nat, nat)>)
    requires from <= |s|
    ensures r.Some? ==> from <= r.value.0 && PortMatch(s, r.value.0, r.value.1)
    ensures r.Some? ==> forall i: nat, j: nat :: from <= i < r.value.0 ==> !PortMatch(s, i, j)
    ensures r.None? ==> forall i: nat, j: nat :: from <= i ==> !PortMatch(s, i, j)
    decreases |s| - from
  {
    if from == |s| then None
    else
      var j := DigitRunEnd(s, from + (if from < |s| then 1 else 0));
      if s[from] == ':' && from + 1 < j && OccursAt(s, PortSuffix, j) then Some((from, j))
      else
        NoMatchAt(s, from, j);
        FindPort(s, from + 1)
  }

  /** Digits are followed by `-` in a match, so the digit run is always the whole run. */
  lemma NoMatchAt(s: string, from: nat, j: nat)
    requires from < |s| && j == DigitRunEnd(s, from + 1)
    requires !(s[from] == ':' && from + 1 < j && OccursAt(s, PortSuffix, j))
    ensures forall j': nat :: !PortMatch(s, from, j')
  {
    forall j': nat | PortMatch(s, from, j') ensures false {
      assert s[j'] == s[j'..j' + |PortSuffix|][0];
      DigitRunUnique(s, from + 1, j');
    }
  }

  /** The end of a run of digits that is not followed by a digit is where the run ends. */
  lemma {:induction false} DigitRunUnique(s: string, k: nat, j: nat)
    requires k <= j <= |s| && AllDigits(s[k..j]) && (j < |s| ==> !IsDigit(s[j]))
    ensures j == DigitRunEnd(s, k)
    decreases |s| - k
  {
    if k < j {
      assert s[k] == s[k..j][0];
      assert s[k + 1..j] == s[k..j][1..];
      DigitRunUnique(s, k + 1, j);
    }
  }

  /** Why no port could be extracted. */
  datatype PortError = NoPortsKey | NoPortMatch

  /** `extract_port_from_pod_info`, given the record's `Ports` entry (None when the key is
      absent): the digits of the leftmost match, read as an integer; otherwise an
      OrchestratorError. */
  function ExtractPort(ports: Option<string>): (r: Result<nat, PortError>)
    ensures r == Err(NoPortsKey) <==> ports.None?
    ensures r == Err(NoPortMatch) <==> ports.Some? && forall i: nat, j: nat :: !PortMatch(ports.value, i, j)
    ensures r.Ok? ==> exists i: nat, j: nat ::
      && PortMatch(ports.value, i, j)
      && r.value == DigitsValue(ports.value[i + 1..j])
      && forall i': nat, j': nat :: i' < i ==> !PortMatch(ports.value, i', j')
  {
    match ports
    case None => Err(NoPortsKey)
    case Some(s) =>
      match FindPort(s, 0)
      case None => Err(NoPortMatch)
      case Some(m) => Ok(DigitsValue(s[m.0 + 1..m.1]))
  }

  /** A port mapping `<host>:<port>-><80/tcp>...` rendered for any host without a colon is
      read back as that port. */
  lemma ExtractPortOfMapping(host: string, port: nat, rest: string)
    requires ':' !in host
    ensures ExtractPort(Some(host + ":" + NatToString(port) + PortSuffix + rest)) == Ok(port)
  {
    var digits := NatToString(port);
    var s := host + ":" + digits + PortSuffix + rest;
    var i := |host|;
    var j := i + 1 + |digits|;
    assert s[i + 1..j] == digits;
    assert s[j..j + |PortSuffix|] == PortSuffix;
    assert PortMatch(s, i, j);
    var m := FindPort(s, 0).value;
    assert forall k :: 0 <= k < |host| ==> s[k] == host[k];
    assert m.0 <= i;
    assert m.0 == i;
    assert m.1 == j by {
      NoMatchOther(s, i, j, m.1);
    }
    NatToStringValue(port);
  }

  /** At a given position at most one end of the digits can match. */
  lemma NoMatchOther(s: string, i: nat, j: nat, j': nat)
    requires PortMatch(s, i, j) && PortMatch(s, i, j')
    ensures j == j'
  {
    assert s[j] == s[j..j + |PortSuffix|][0] == '-';
    assert s[j'] == s[j'..j' + |PortSuffix|][0] == '-';
  }

  /** The lab URL derived from a host port. */
  function LocalUrl(port: nat): string
  {
    "http://localhost:" + NatToString(port)
  }

  // ---------------------------------------------------------------------------
  // detect_backend
  // ---------------------------------------------------------------------------

  /** `detect_backend` over what `shutil.which` resolves: Docker when both `docker` and
      `docker-compose` resolve, else Podman when both `podman` and `podman-compose` do,
      else a RuntimeError. */
  function DetectBackend(docker: bool, dockerCompose: bool, podman: bool, podmanCompose: bool): (r: Result<string, string>)
    ensures r == Ok("docker") <==> docker && dockerCompose
    ensures r == Ok("podman") <==> !(docker && dockerCompose) && podman && podmanCompose
    ensures r.Err? <==> !(docker && dockerCompose) && !(podman && podmanCompose)
  {
    if docker && dockerCompose then Ok("docker")
    else if podman && podmanCompose then Ok("podman")
    else Err("Neither Docker nor Podman found.")
  }
}

/** The configuration resolver of the layer: the `key=value` file format, the
    two config-file locations, the environment variables and the order in
    which they are consulted when a session is created.

    Files are sequences of lines (what `std::getline` yields); a file that does
    not exist, or whose reading throws, is `None`. `std::stof` and `std::stoi`
    are abstract partial parsers passed in as functions: `None` stands for the
    exception they throw on malformed input. */
module ConfigResolver {
  import opened XrTypes

  // ---------------------------------------------------------------------
  // Character and string helpers (C locale)
  // ---------------------------------------------------------------------

  /** `std::isspace` in the C locale: space, \t, \n, \v, \f, \r. */
  predicate IsSpace(c: char) {
    c == ' ' || c == '\t' || c == '\n' || c as int == 11 || c as int == 12 || c == '\r'
  }

  /** `std::tolower` in the C locale: only ASCII upper-case letters change. */
  function LowerChar(c: char): (r: char)
    ensures 'A' <= c <= 'Z' ==> 'a' <= r <= 'z' && r as int == c as int + 32
    ensures !('A' <= c <= 'Z') ==> r == c
  {
    if 'A' <= c <= 'Z' then (c as int + 32) as char else c
  }

  function ToLower(s: string): (r: string)
    ensures |r| == |s|
    ensures forall i :: 0 <= i < |s| ==> r[i] == LowerChar(s[i])
  {
    seq(|s|, i requires 0 <= i < |s| => LowerChar(s[i]))
  }

  /** Removes leading white space. */
  function TrimLeft(s: string): (r: string)
    ensures |r| <= |s| && r == s[|s| - |r|..]
    ensures forall i :: 0 <= i < |s| - |r| ==> IsSpace(s[i])
    ensures r != [] ==> !IsSpace(r[0])
  {
    if s != [] && IsSpace(s[0]) then TrimLeft(s[1..]) else s
  }

  /** Removes trailing white space. */
  function TrimRight(s: string): (r: string)
    ensures |r| <= |s| && r == s[..|r|]
    ensures forall i :: |r| <= i < |s| ==> IsSpace(s[i])
    ensures r != [] ==> !IsSpace(r[|r| - 1])
  {
    if s != [] && IsSpace(s[|s| - 1]) then TrimRight(s[..|s| - 1]) else s
  }

  /** The `trim` lambda of the readers: drops the white space at both ends. */
  function Trim(s: string): (r: string)
    ensures |r| <= |s|
    ensures r != [] ==> !IsSpace(r[0]) && !IsSpace(r[|r| - 1])
  {
    TrimRight(TrimLeft(s))
  }

  /** Trimming keeps one contiguous slice of the input and drops only white
      space on either side of it. */
  lemma TrimDropsOnlyOuterSpace(s: string)
    ensures exists i, j :: 0 <= i <= j <= |s| && Trim(s) == s[i..j] && OnlySpaceOutside(s, i, j)
  {
    var left := TrimLeft(s);
    OuterSpaceOfNestedSlices(s, left, TrimRight(left));
  }

  /** A suffix of `s` after white space, cut before white space, is a slice
      of `s` with only white space outside it. */
  lemma OuterSpaceOfNestedSlices(s: string, left: string, r: string)
    requires |left| <= |s| && left == s[|s| - |left|..]
    requires forall k :: 0 <= k < |s| - |left| ==> IsSpace(s[k])
    requires |r| <= |left| && r == left[..|r|]
    requires forall k :: |r| <= k < |left| ==> IsSpace(left[k])
    ensures exists i, j :: 0 <= i <= j <= |s| && r == s[i..j] && OnlySpaceOutside(s, i, j)
  {
    var i := |s| - |left|;
    var j := i + |r|;
    assert r == s[i..j];
    forall k | j <= k < |s| ensures IsSpace(s[k]) {
      assert s[k] == left[k - i];
    }
    assert OnlySpaceOutside(s, i, j);
  }

  /** Every character of `s` before `i` and from `j` on is white space. */
  predicate OnlySpaceOutside(s: string, i: nat, j: nat)
    requires i <= j <= |s|
  {
    && (forall k :: 0 <= k < i ==> IsSpace(s[k]))
    && (forall k :: j <= k < |s| ==> IsSpace(s[k]))
  }

  lemma TrimOfTrimmed(s: string)
    requires s != [] ==> !IsSpace(s[0]) && !IsSpace(s[|s| - 1])
    ensures Trim(s) == s
  {
    assert TrimLeft(s) == s;
    assert TrimRight(s) == s;
  }

  /** `std::string::find(c)`: the index of the first occurrence of `c`. */
  function FindFirst(s: string, c: char): (r: Option<nat>)
    ensures r.Some? ==> r.value < |s| && s[r.value] == c
    ensures r.Some? ==> forall j :: 0 <= j < r.value ==> s[j] != c
    ensures r.None? ==> forall j :: 0 <= j < |s| ==> s[j] != c
  {
    if s == [] then None
    else if s[0] == c then Some(0)
    else match FindFirst(s[1..], c)
      case None => None
      case Some(k) => Some(k + 1)
  }

  // ---------------------------------------------------------------------
  // One line of a config file
  // ---------------------------------------------------------------------

  datatype Entry = Entry(key: string, value: string)

  /** A line the readers skip: empty after trimming, or a `#` / `;` comment. */
  predicate IsCommentOrBlank(line: string) {
    line == [] || line[0] == '#' || line[0] == ';'
  }

  /** The entry a raw line holds, or `None` when the readers skip it: the line
      is trimmed; blank and comment lines and lines without `=` are skipped;
      the key is the trimmed, lower-cased text before the first `=` and the
      value is the trimmed text after it (it may itself contain `=`). */
  function ParseLine(raw: string): (r: Option<Entry>)
    ensures r.None? <==> IsCommentOrBlank(Trim(raw)) || '=' !in Trim(raw)
  {
    SplitTrimmedLine(Trim(raw))
  }

  /** The part of `ParseLine` after the whole line has been trimmed. */
  function SplitTrimmedLine(line: string): (r: Option<Entry>)
    ensures r.None? <==> IsCommentOrBlank(line) || '=' !in line
  {
    if IsCommentOrBlank(line) then None
    else match FindFirst(line, '=')
      case None => None
      case Some(pos) => Some(Entry(ToLower(Trim(line[..pos])), Trim(line[pos + 1..])))
  }

  /** The first `=` of `line` is at position `p`. */
  predicate FirstEqualsAt(line: string, p: nat) {
    p < |line| && line[p] == '=' && '=' !in line[..p]
  }

  /** `line` splits at its first `=`, at `p`, into `e`: the trimmed,
      lower-cased text before it and the trimmed text after it. */
  predicate SplitsAt(line: string, p: nat, e: Entry) {
    FirstEqualsAt(line, p) && e == Entry(ToLower(Trim(line[..p])), Trim(line[p + 1..]))
  }

  /** A parsed line has a first `=`, and its entry is the split there. */
  lemma ParsedLineSplitsAtFirstEquals(raw: string)
    requires ParseLine(raw).Some?
    ensures exists p :: SplitsAt(Trim(raw), p, ParseLine(raw).value)
  {
    var line := Trim(raw);
    var pos := FindFirst(line, '=').value;
    SplitAt(line, pos);
    AbsentFromPrefix(line, '=', pos);
    assert SplitsAt(line, pos, ParseLine(raw).value);
  }

  lemma AbsentFromPrefix(s: string, c: char, n: nat)
    requires n <= |s|
    requires forall j :: 0 <= j < n ==> s[j] != c
    ensures c !in s[..n]
  {
    assert forall j :: 0 <= j < n ==> s[..n][j] == s[j];
  }

  /** A parsed key is lower case, trimmed and holds no `=`; a parsed value is
      trimmed. */
  lemma ParsedEntryIsCanonical(raw: string)
    requires ParseLine(raw).Some?
    ensures '=' !in ParseLine(raw).value.key
    ensures ToLower(ParseLine(raw).value.key) == ParseLine(raw).value.key
    ensures Trim(ParseLine(raw).value.key) == ParseLine(raw).value.key
    ensures Trim(ParseLine(raw).value.value) == ParseLine(raw).value.value
  {
    var line := Trim(raw);
    var pos := FindFirst(line, '=').value;
    SplitAt(line, pos);
    var before := line[..pos];
    var trimmed := Trim(before);
    TrimKeepsOnlyCharactersOf(before);
    LowerIsIdempotent(trimmed);
    LowerKeepsTrimmed(trimmed);
    TrimIsIdempotent(line[pos + 1..]);
  }

  /** Lower-casing a trimmed string leaves it trimmed: no letter is white
      space. */
  lemma LowerKeepsTrimmed(s: string)
    requires Trim(s) == s
    ensures Trim(ToLower(s)) == ToLower(s)
  {
    var t := ToLower(s);
    if t != [] {
      assert t[0] == LowerChar(s[0]) && t[|t| - 1] == LowerChar(s[|s| - 1]);
      TrimOfTrimmed(t);
    }
  }

  /** Trimming only removes characters. */
  lemma TrimKeepsOnlyCharactersOf(s: string)
    ensures forall c :: c in Trim(s) ==> c in s
  {
    TrimLeftKeepsOnlyCharactersOf(s);
    TrimRightKeepsOnlyCharactersOf(TrimLeft(s));
  }

  lemma {:induction false} TrimLeftKeepsOnlyCharactersOf(s: string)
    ensures forall c :: c in TrimLeft(s) ==> c in s
  {
    if s != [] && IsSpace(s[0]) {
      TrimLeftKeepsOnlyCharactersOf(s[1..]);
    }
  }

  lemma {:induction false} TrimRightKeepsOnlyCharactersOf(s: string)
    ensures forall c :: c in TrimRight(s) ==> c in s
  {
    if s != [] && IsSpace(s[|s| - 1]) {
      TrimRightKeepsOnlyCharactersOf(s[..|s| - 1]);
    }
  }

  lemma TrimIsIdempotent(s: string)
    ensures Trim(Trim(s)) == Trim(s)
  {
    TrimOfTrimmed(Trim(s));
  }

  lemma LowerIsIdempotent(s: string)
    ensures ToLower(ToLower(s)) == ToLower(s)
    ensures '=' !in s ==> '=' !in ToLower(s)
  {
  }

  /** A key as the readers compare it: already lower case, no `=`, no
      surrounding white space, and not the start of a comment. */
  predicate IsCanonicalKey(k: string) {
    && ToLower(k) == k
    && '=' !in k
    && (k != [] ==> !IsSpace(k[0]) && !IsSpace(k[|k| - 1]) && k[0] != '#' && k[0] != ';')
  }

  /** Writing `key=value` and reading the line back gives the entry back. */
  lemma {:induction false} ParseFormattedLine(k: string, v: string)
    requires IsCanonicalKey(k)
    requires Trim(v) == v
    ensures ParseLine(k + "=" + v) == Some(Entry(k, v))
  {
    var line := k + "=" + v;
    assert v != [] ==> !IsSpace(v[|v| - 1]);
    FormattedLineIsTrimmed(k, v);
    FormattedLineSplitsAtKey(k, v);
    assert line[..|k|] == k;
    assert line[|k| + 1..] == v;
    var key := Trim(line[..|k|]);
    assert key == k by {
      if k != [] {
        TrimOfTrimmed(k);
      }
    }
    assert ToLower(key) == k;
    SplitAt(line, |k|);
    assert Trim(line[|k| + 1..]) == v;
    assert SplitTrimmedLine(line) == Some(Entry(k, v));
    assert Trim(line) == line;
    assert ParseLine(line) == SplitTrimmedLine(Trim(line));
  }

  /** Unfolds `SplitTrimmedLine` at the first `=` of a line it splits. */
  lemma SplitAt(line: string, pos: nat)
    requires !IsCommentOrBlank(line)
    requires FindFirst(line, '=') == Some(pos)
    ensures SplitTrimmedLine(line) == Some(Entry(ToLower(Trim(line[..pos])), Trim(line[pos + 1..])))
  {
  }

  lemma FormattedLineIsTrimmed(k: string, v: string)
    requires k != [] ==> !IsSpace(k[0]) && k[0] != '#' && k[0] != ';'
    requires v != [] ==> !IsSpace(v[|v| - 1])
    ensures Trim(k + "=" + v) == k + "=" + v
    ensures !IsCommentOrBlank(k + "=" + v)
  {
    var line := k + "=" + v;
    var first := line[0];
    var last := line[|line| - 1];
    assert first == if k == [] then '=' else k[0];
    assert last == if v == [] then '=' else v[|v| - 1];
    TrimOfTrimmed(line);
  }

  lemma FormattedLineSplitsAtKey(k: string, v: string)
    requires '=' !in k
    ensures FindFirst(k + "=" + v, '=') == Some(|k|)
  {
    var line := k + "=" + v;
    assert line[|k|] == '=';
    assert forall j :: 0 <= j < |k| ==> line[j] == k[j];
  }

  // ---------------------------------------------------------------------
  // Looking a key up in one file
  // ---------------------------------------------------------------------

  predicate HasKey(line: string, key: string) {
    ParseLine(line).Some? && ParseLine(line).value.key == key
  }

  /** The value of the first line of `lines` whose key is `key`. */
  function LookupLines(lines: seq<string>, key: string): (r: Option<string>)
    ensures r.Some? ==> Trim(r.value) == r.value
  {
    if lines == [] then None
    else if HasKey(lines[0], key) then
      ParsedEntryIsCanonical(lines[0]);
      Some(ParseLine(lines[0]).value.value)
    else LookupLines(lines[1..], key)
  }

  /** Line `i` is the first of `lines` with key `key`, and its value is `v`. */
  predicate FirstMatchAt(lines: seq<string>, key: string, i: nat, v: string) {
    && i < |lines|
    && HasKey(lines[i], key)
    && ParseLine(lines[i]).value.value == v
    && NoKeyBefore(lines, key, i)
  }

  predicate NoKeyBefore(lines: seq<string>, key: string, n: nat)
    requires n <= |lines|
  {
    forall j :: 0 <= j < n ==> !HasKey(lines[j], key)
  }

  /** The lookup answers with the first matching line, and with nothing
      exactly when no line matches. */
  lemma {:induction false} LookupFindsFirstMatch(lines: seq<string>, key: string)
    ensures LookupLines(lines, key).None? <==> NoKeyBefore(lines, key, |lines|)
    ensures LookupLines(lines, key).Some? ==>
      exists i :: FirstMatchAt(lines, key, i, LookupLines(lines, key).value)
  {
    if lines != [] && !HasKey(lines[0], key) {
      var tail := lines[1..];
      LookupFindsFirstMatch(tail, key);
      assert LookupLines(lines, key) == LookupLines(tail, key);
      if LookupLines(tail, key).Some? {
        var v := LookupLines(tail, key).value;
        var i :| FirstMatchAt(tail, key, i, v);
        ShiftFirstMatch(lines, key, i, v);
      } else {
        ShiftNoKey(lines, key);
      }
    } else if lines != [] {
      assert FirstMatchAt(lines, key, 0, LookupLines(lines, key).value);
    }
  }

  lemma ShiftFirstMatch(lines: seq<string>, key: string, i: nat, v: string)
    requires lines != [] && !HasKey(lines[0], key)
    requires FirstMatchAt(lines[1..], key, i, v)
    ensures FirstMatchAt(lines, key, i + 1, v)
  {
    var tail := lines[1..];
    forall j | 0 <= j < i + 1 ensures !HasKey(lines[j], key) {
      if j > 0 { assert lines[j] == tail[j - 1]; }
    }
    assert lines[i + 1] == tail[i];
  }

  lemma ShiftNoKey(lines: seq<string>, key: string)
    requires lines != [] && !HasKey(lines[0], key)
    requires NoKeyBefore(lines[1..], key, |lines| - 1)
    ensures NoKeyBefore(lines, key, |lines|)
  {
    var tail := lines[1..];
    assert forall j :: 0 < j < |lines| ==> lines[j] == tail[j - 1];
  }

  /** What `tryReadConfigValueFromFile` answers for a file. */
  function FileValue(file: Option<seq<string>>, keyLower: string): Option<string> {
    match file
    case None => None
    case Some(lines) => LookupLines(lines, keyLower)
  }

  /** `tryReadConfigValueFromFile`: scan the lines in order and return the
      value of the first line whose key is `keyLower`. */
  method TryReadConfigValueFromFile(file: Option<seq<string>>, keyLower: string)
    returns (v: Option<string>)
    ensures v == FileValue(file, keyLower)
  {
    if file.None? {
      return None;
    }
    var lines := file.value;
    var i := 0;
    while i < |lines|
      invariant 0 <= i <= |lines|
      invariant LookupLines(lines[i..], keyLower) == LookupLines(lines, keyLower)
    {
      assert lines[i..][1..] == lines[i + 1..];
      var entry := ParseLine(lines[i]);
      if entry.Some? && entry.value.key == keyLower {
        return Some(entry.value.value);
      }
      i := i + 1;
    }
    return None;
  }

  /** The two config files: per-user (`%LOCALAPPDATA%`) and per-install (next
      to the layer DLL). */
  datatype ConfigFiles = ConfigFiles(user: Option<seq<string>>, install: Option<seq<string>>)

  /** What `tryReadConfigValue` answers: the per-user file, and the
      per-install file only when the per-user file yields nothing. */
  function ConfigValue(files: ConfigFiles, keyLower: string): (r: Option<string>)
    ensures FileValue(files.user, keyLower).Some? ==> r == FileValue(files.user, keyLower)
    ensures FileValue(files.user, keyLower).None? ==> r == FileValue(files.install, keyLower)
  {
    match FileValue(files.user, keyLower)
    case Some(v) => Some(v)
    case None => FileValue(files.install, keyLower)
  }

  method TryReadConfigValue(files: ConfigFiles, keyLower: string) returns (v: Option<string>)
    ensures v == ConfigValue(files, keyLower)
  {
    v := TryReadConfigValueFromFile(files.user, keyLower);
    if v.Some? {
      return;
    }
    v := TryReadConfigValueFromFile(files.install, keyLower);
  }

  // ---------------------------------------------------------------------
  // Sharpness
  // ---------------------------------------------------------------------

  const DEFAULT_SHARPNESS: real := 0.6
  const SHARPNESS_KEY: string := "sharpness"

  function ClampNonNegative(x: real): (r: real)
    ensures r >= 0.0
    ensures x >= 0.0 ==> r == x
    ensures x < 0.0 ==> r == 0.0
  {
    if x < 0.0 then 0.0 else x
  }

  /** The sharpness a `sharpness` value gives: the parsed number clamped to
      be non-negative, or nothing when it does not parse. */
  function ParseSharpness(val: string, parse: string -> Option<real>): (r: Option<real>)
    ensures r.Some? <==> parse(val).Some?
    ensures r.Some? ==> r.value >= 0.0
    ensures r.Some? ==> r.value == ClampNonNegative(parse(val).value)
  {
    match parse(val)
    case None => None
    case Some(x) => Some(ClampNonNegative(x))
  }

  /** What `tryReadSharpnessFromConfigFile` answers: the first `sharpness`
      line decides; when its value is malformed the file yields nothing, even
      if a later `sharpness` line is well formed. */
  function SharpnessFromFile(file: Option<seq<string>>, parse: string -> Option<real>): Option<real> {
    match FileValue(file, SHARPNESS_KEY)
    case None => None
    case Some(val) => ParseSharpness(val, parse)
  }

  /** `tryReadSharpnessFromConfigFile`. */
  method TryReadSharpnessFromConfigFile(file: Option<seq<string>>, parse: string -> Option<real>)
    returns (v: Option<real>)
    ensures v == SharpnessFromFile(file, parse)
    ensures v.Some? ==> v.value >= 0.0
  {
    if file.None? {
      return None;
    }
    var lines := file.value;
    var i := 0;
    while i < |lines|
      invariant 0 <= i <= |lines|
      invariant LookupLines(lines[i..], SHARPNESS_KEY) == LookupLines(lines, SHARPNESS_KEY)
    {
      assert lines[i..][1..] == lines[i + 1..];
      var entry := ParseLine(lines[i]);
      if entry.Some? && entry.value.key == SHARPNESS_KEY {
        match parse(entry.value.value)
        case None =>
          return None;
        case Some(x) =>
          var c := x;
          if c < 0.0 {
            c := 0.0;
          }
          return Some(c);
      }
      i := i + 1;
    }
    return None;
  }

  // ---------------------------------------------------------------------
  // Environment variables
  // ---------------------------------------------------------------------

  /** What `GetEnvironmentVariableA(name, buf, size)` leaves: the count it
      returns and the text in the buffer, read up to its first NUL. */
  datatype EnvRead = EnvRead(count: nat, buffer: string)

  /** `GetEnvironmentVariableA` with a zero-initialised buffer of `size`
      characters: 0 for an unset or empty variable, the buffer still all zero
      (the empty string); the length when the value and its terminator fit,
      the buffer then holding the value; otherwise the size needed, terminator
      included. In that last case Win32 leaves the buffer's contents
      undefined: `leftover` is whatever it then holds. */
  function GetEnvironmentVariable(value: Option<string>, size: nat, leftover: string): (r: EnvRead)
    requires size > 0
    ensures r.count == 0 <==> value.None? || value.value == []
    ensures r.count == 0 ==> r.buffer == []
    ensures 0 < r.count < size <==> value.Some? && 0 < |value.value| < size
    ensures 0 < r.count < size ==> r.buffer == value.value
    ensures r.count >= size ==> r.count == |value.value| + 1 && r.buffer == leftover
  {
    match value
    case None => EnvRead(0, [])
    case Some(v) =>
      if v == [] then EnvRead(0, [])
      else if |v| < size then EnvRead(|v|, v)
      else EnvRead(|v| + 1, leftover)
  }

  /** The three environment variables the layer reads. For the two whose
      buffer is read even when the value did not fit, the record also holds
      what that buffer then contains, which Win32 leaves undefined. */
  datatype Environment = Environment(
    casSharpness: Option<string>,   // XR_CAS_SHARPNESS
    debugFrames: Option<string>,    // XR_CAS_DEBUG_FRAMES
    debugFramesLeftover: string,    // the 32-character buffer after an overlong value
    debugOverlay: Option<string>,   // XR_CAS_DEBUG_OVERLAY
    debugOverlayLeftover: string)   // the 8-character buffer after an overlong value

  /** `readSharpnessFromEnv` (64-character buffer). The buffer is only read
      when the value fitted, so what an overlong value leaves in it (`[]`
      here) never matters. */
  function SharpnessFromEnv(value: Option<string>, parse: string -> Option<real>): (r: real)
    ensures r >= 0.0
    ensures value.None? ==> r == DEFAULT_SHARPNESS
    ensures value.Some? && |value.value| >= 64 ==> r == DEFAULT_SHARPNESS
    ensures value.Some? && 0 < |value.value| < 64 && parse(value.value).None? ==> r == DEFAULT_SHARPNESS
    ensures value.Some? && 0 < |value.value| < 64 && parse(value.value).Some? ==>
      r == ClampNonNegative(parse(value.value).value)
  {
    var e := GetEnvironmentVariable(value, 64, []);
    if 0 < e.count < 64 then
      match parse(e.buffer)
      case Some(x) => ClampNonNegative(x)
      case None => DEFAULT_SHARPNESS
    else DEFAULT_SHARPNESS
  }

  /** What `resolveSharpnessFromConfigOrEnv` answers. */
  function ResolvedSharpness(env: Environment, files: ConfigFiles, parse: string -> Option<real>): (r: real)
    ensures r >= 0.0
  {
    if GetEnvironmentVariable(env.casSharpness, 64, []).count > 0 then
      SharpnessFromEnv(env.casSharpness, parse)
    else
      match SharpnessFromFile(files.user, parse)
      case Some(x) => x
      case None =>
        match SharpnessFromFile(files.install, parse)
        case Some(x) => x
        case None => DEFAULT_SHARPNESS
  }

  /** `resolveSharpnessFromConfigOrEnv`: environment, then per-user file,
      then per-install file, then 0.6. */
  method ResolveSharpnessFromConfigOrEnv(env: Environment, files: ConfigFiles, parse: string -> Option<real>)
    returns (s: real)
    ensures s == ResolvedSharpness(env, files, parse)
  {
    var e := GetEnvironmentVariable(env.casSharpness, 64, []);
    if e.count > 0 {
      return SharpnessFromEnv(env.casSharpness, parse);
    }
    var v := TryReadSharpnessFromConfigFile(files.user, parse);
    if v.Some? {
      return v.value;
    }
    v := TryReadSharpnessFromConfigFile(files.install, parse);
    if v.Some? {
      return v.value;
    }
    return DEFAULT_SHARPNESS;
  }

  /** When `XR_CAS_SHARPNESS` is set to a non-empty value the files are not
      consulted at all; a value of 64 characters or more gives 0.6. */
  lemma EnvironmentDecidesSharpness(env: Environment, files1: ConfigFiles, files2: ConfigFiles,
                                    parse: string -> Option<real>)
    requires env.casSharpness.Some? && env.casSharpness.value != []
    ensures ResolvedSharpness(env, files1, parse) == ResolvedSharpness(env, files2, parse)
    ensures |env.casSharpness.value| >= 64 ==> ResolvedSharpness(env, files1, parse) == DEFAULT_SHARPNESS
    ensures |env.casSharpness.value| < 64 && parse(env.casSharpness.value).Some? ==>
      ResolvedSharpness(env, files1, parse) == ClampNonNegative(parse(env.casSharpness.value).value)
    ensures |env.casSharpness.value| < 64 && parse(env.casSharpness.value).None? ==>
      ResolvedSharpness(env, files1, parse) == DEFAULT_SHARPNESS
  {
  }

  /** The precedence chain for sharpness: environment, per-user file,
      per-install file, default — each tried only when the previous one
      yields nothing. */
  lemma SharpnessPrecedence(env: Environment, files: ConfigFiles, parse: string -> Option<real>)
    requires env.casSharpness.None? || env.casSharpness.value == []
    ensures SharpnessFromFile(files.user, parse).Some? ==>
      ResolvedSharpness(env, files, parse) == SharpnessFromFile(files.user, parse).value
    ensures SharpnessFromFile(files.user, parse).None? && SharpnessFromFile(files.install, parse).Some? ==>
      ResolvedSharpness(env, files, parse) == SharpnessFromFile(files.install, parse).value
    ensures SharpnessFromFile(files.user, parse).None? && SharpnessFromFile(files.install, parse).None? ==>
      ResolvedSharpness(env, files, parse) == DEFAULT_SHARPNESS
  {
  }

  // ---------------------------------------------------------------------
  // The per-session effect configuration (xrCreateSession)
  // ---------------------------------------------------------------------

  const DEFAULT_DEBUG_FRAMES: u32 := 60

  datatype LevelsParams = LevelsParams(inBlack: real, inWhite: real, outBlack: real, outWhite: real, gamma: real)
  datatype FakeHdrParams = FakeHdrParams(power: real, radius1: real, radius2: real)

  const DEFAULT_LEVELS := LevelsParams(0.0, 1.0, 0.0, 1.0, 1.0)
  const DEFAULT_FAKE_HDR := FakeHdrParams(1.30, 0.793, 0.87)

  datatype EffectConfig = EffectConfig(
    sharpness: real,
    debugOverlay: bool,
    debugFramesMax: u32,
    levelsEnabled: bool,
    levels: LevelsParams,
    fakeHdrEnabled: bool,
    fakeHdr: FakeHdrParams)

  /** The bool-like reading of a config value: `1`, `true` or `yes` in any
      letter case. */
  predicate IsTruthy(val: string) {
    var v := ToLower(val);
    v == "1" || v == "true" || v == "yes"
  }

  /** `stoi` followed by `if (v >= 0) field = v`: keeps `prior` unless the
      text parses to a non-negative number. */
  function NonNegativeOr(parsed: Option<i32>, prior: u32): (r: u32)
    ensures parsed.Some? && parsed.value >= 0 ==> r == parsed.value
    ensures parsed.None? || parsed.value < 0 ==> r == prior
  {
    if parsed.Some? && parsed.value >= 0 then parsed.value else prior
  }

  /** `text` parses to the number `n`. */
  predicate ParsesTo(parseInt: string -> Option<i32>, text: string, n: int) {
    parseInt(text).Some? && parseInt(text).value as int == n
  }

  /** `debugFramesMax`: `XR_CAS_DEBUG_FRAMES` (32-character buffer) is read
      first, then a `debug_frames` config value overwrites it. */
  function DebugFramesMax(env: Option<string>, leftover: string, cfg: Option<string>,
                          parseInt: string -> Option<i32>): (r: u32)
    ensures r == DEFAULT_DEBUG_FRAMES
      || (cfg.Some? && ParsesTo(parseInt, cfg.value, r))
      || (env.Some? && env.value != [] && ParsesTo(parseInt, GetEnvironmentVariable(env, 32, leftover).buffer, r))
  {
    var e := GetEnvironmentVariable(env, 32, leftover);
    var fromEnv := if e.count > 0 then NonNegativeOr(parseInt(e.buffer), DEFAULT_DEBUG_FRAMES) else DEFAULT_DEBUG_FRAMES;
    match cfg
    case Some(s) => NonNegativeOr(parseInt(s), fromEnv)
    case None => fromEnv
  }

  /** `debugOverlay`: `XR_CAS_DEBUG_OVERLAY` (8-character buffer) sets it to
      "first character is not '0'", then a `debug_overlay` config value
      overwrites it with its bool-like reading. */
  function DebugOverlay(env: Option<string>, leftover: string, cfg: Option<string>): (r: bool)
    ensures r ==> (cfg.Some? && IsTruthy(cfg.value)) || (cfg.None? && env.Some? && env.value != [])
  {
    var e := GetEnvironmentVariable(env, 8, leftover);
    var fromEnv := if e.count > 0 then (e.buffer == [] || e.buffer[0] != '0') else false;
    match cfg
    case Some(s) => IsTruthy(s)
    case None => fromEnv
  }

  /** A float setting: `stof` of the config value, else the default. */
  function RealSetting(cfg: Option<string>, default: real, parse: string -> Option<real>): real {
    match cfg
    case Some(s) => parse(s).GetOr(default)
    case None => default
  }

  /** A bool-like setting that only the config file sets. */
  function BoolSetting(cfg: Option<string>): bool {
    cfg.Some? && IsTruthy(cfg.value)
  }

  /** The Levels parameters: each from its config value, else its default. */
  function LevelsOf(files: ConfigFiles, parseReal: string -> Option<real>): LevelsParams {
    LevelsParams(
      RealSetting(ConfigValue(files, "levels_in_black"), DEFAULT_LEVELS.inBlack, parseReal),
      RealSetting(ConfigValue(files, "levels_in_white"), DEFAULT_LEVELS.inWhite, parseReal),
      RealSetting(ConfigValue(files, "levels_out_black"), DEFAULT_LEVELS.outBlack, parseReal),
      RealSetting(ConfigValue(files, "levels_out_white"), DEFAULT_LEVELS.outWhite, parseReal),
      RealSetting(ConfigValue(files, "levels_gamma"), DEFAULT_LEVELS.gamma, parseReal))
  }

  /** The configuration a session is created with. */
  function EffectConfigOf(env: Environment, files: ConfigFiles,
                          parseReal: string -> Option<real>, parseInt: string -> Option<i32>): (c: EffectConfig)
    ensures c.sharpness >= 0.0
  {
    EffectConfig(
      sharpness := ResolvedSharpness(env, files, parseReal),
      debugOverlay := DebugOverlay(env.debugOverlay, env.debugOverlayLeftover, ConfigValue(files, "debug_overlay")),
      debugFramesMax := DebugFramesMax(env.debugFrames, env.debugFramesLeftover, ConfigValue(files, "debug_frames"), parseInt),
      levelsEnabled := BoolSetting(ConfigValue(files, "levels_enable")),
      levels := LevelsOf(files, parseReal),
      fakeHdrEnabled := BoolSetting(ConfigValue(files, "fakehdr_enable")),
      fakeHdr := FakeHdrParams(
        RealSetting(ConfigValue(files, "fakehdr_power"), DEFAULT_FAKE_HDR.power, parseReal),
        RealSetting(ConfigValue(files, "fakehdr_radius1"), DEFAULT_FAKE_HDR.radius1, parseReal),
        RealSetting(ConfigValue(files, "fakehdr_radius2"), DEFAULT_FAKE_HDR.radius2, parseReal)))
  }

  method ReadRealSetting(files: ConfigFiles, key: string, default: real, parse: string -> Option<real>)
    returns (x: real)
    ensures x == RealSetting(ConfigValue(files, key), default, parse)
  {
    x := default;
    var s := TryReadConfigValue(files, key);
    if s.Some? {
      match parse(s.value)
      case Some(y) => x := y;
      case None =>
    }
  }

  method ReadBoolSetting(files: ConfigFiles, key: string) returns (b: bool)
    ensures b == BoolSetting(ConfigValue(files, key))
  {
    b := false;
    var s := TryReadConfigValue(files, key);
    if s.Some? {
      var v := ToLower(s.value);
      b := v == "1" || v == "true" || v == "yes";
    }
  }

  /** The `debugFramesMax` lines of `xrCreateSession`. */
  method ReadDebugFramesMax(env: Option<string>, leftover: string, files: ConfigFiles,
                            parseInt: string -> Option<i32>)
    returns (frames: u32)
    ensures frames == DebugFramesMax(env, leftover, ConfigValue(files, "debug_frames"), parseInt)
  {
    frames := DEFAULT_DEBUG_FRAMES;
    var fr := GetEnvironmentVariable(env, 32, leftover);
    if fr.count > 0 {
      frames := NonNegativeOr(parseInt(fr.buffer), frames);
    }
    var cfg := TryReadConfigValue(files, "debug_frames");
    if cfg.Some? {
      frames := NonNegativeOr(parseInt(cfg.value), frames);
    }
  }

  /** The `debugOverlay` lines of `xrCreateSession`. */
  method ReadDebugOverlay(env: Option<string>, leftover: string, files: ConfigFiles) returns (overlay: bool)
    ensures overlay == DebugOverlay(env, leftover, ConfigValue(files, "debug_overlay"))
  {
    overlay := false;
    var ov := GetEnvironmentVariable(env, 8, leftover);
    if ov.count > 0 {
      // an empty buffer has '\0' as its first character
      overlay := ov.buffer == [] || ov.buffer[0] != '0';
    }
    var cfg := TryReadConfigValue(files, "debug_overlay");
    if cfg.Some? {
      var v := ToLower(cfg.value);
      overlay := v == "1" || v == "true" || v == "yes";
    }
  }

  /** The five Levels parameters. */
  method ReadLevelsParams(files: ConfigFiles, parseReal: string -> Option<real>) returns (p: LevelsParams)
    ensures p == LevelsOf(files, parseReal)
  {
    var inBlack := ReadRealSetting(files, "levels_in_black", DEFAULT_LEVELS.inBlack, parseReal);
    var inWhite := ReadRealSetting(files, "levels_in_white", DEFAULT_LEVELS.inWhite, parseReal);
    var outBlack := ReadRealSetting(files, "levels_out_black", DEFAULT_LEVELS.outBlack, parseReal);
    var outWhite := ReadRealSetting(files, "levels_out_white", DEFAULT_LEVELS.outWhite, parseReal);
    var gamma := ReadRealSetting(files, "levels_gamma", DEFAULT_LEVELS.gamma, parseReal);
    p := LevelsParams(inBlack, inWhite, outBlack, outWhite, gamma);
  }

  /** The configuration block of `xrCreateSession`, in the source's order. */
  method ReadEffectConfig(env: Environment, files: ConfigFiles,
                          parseReal: string -> Option<real>, parseInt: string -> Option<i32>)
    returns (c: EffectConfig)
    ensures c == EffectConfigOf(env, files, parseReal, parseInt)
  {
    var sharpness := ResolveSharpnessFromConfigOrEnv(env, files, parseReal);
    var debugFrames := ReadDebugFramesMax(env.debugFrames, env.debugFramesLeftover, files, parseInt);
    var overlay := ReadDebugOverlay(env.debugOverlay, env.debugOverlayLeftover, files);

    var levelsEnabled := ReadBoolSetting(files, "levels_enable");
    var levels := ReadLevelsParams(files, parseReal);

    var fakeHdrEnabled := ReadBoolSetting(files, "fakehdr_enable");
    var power := ReadRealSetting(files, "fakehdr_power", DEFAULT_FAKE_HDR.power, parseReal);
    var radius1 := ReadRealSetting(files, "fakehdr_radius1", DEFAULT_FAKE_HDR.radius1, parseReal);
    var radius2 := ReadRealSetting(files, "fakehdr_radius2", DEFAULT_FAKE_HDR.radius2, parseReal);

    c := EffectConfig(sharpness, overlay, debugFrames, levelsEnabled, levels,
                      fakeHdrEnabled, FakeHdrParams(power, radius1, radius2));
  }

  /** Despite the "env > config" comment in the source, a well-formed
      `debug_frames` config value wins over `XR_CAS_DEBUG_FRAMES`, and the
      environment only matters when the config yields no usable value. */
  lemma ConfigOverridesEnvForDebugFrames(env: Option<string>, leftover: string, cfg: Option<string>,
                                          parseInt: string -> Option<i32>)
    ensures cfg.Some? && parseInt(cfg.value).Some? && parseInt(cfg.value).value >= 0 ==>
      DebugFramesMax(env, leftover, cfg, parseInt) == parseInt(cfg.value).value
    ensures cfg.None? && env.Some? && 0 < |env.value| < 32 && parseInt(env.value).Some? && parseInt(env.value).value >= 0 ==>
      DebugFramesMax(env, leftover, cfg, parseInt) == parseInt(env.value).value
    ensures cfg.None? && env.Some? && |env.value| >= 32 ==>
      DebugFramesMax(env, leftover, cfg, parseInt) == NonNegativeOr(parseInt(leftover), DEFAULT_DEBUG_FRAMES)
    ensures (env.None? || env.value == []) && cfg.None? ==>
      DebugFramesMax(env, leftover, cfg, parseInt) == DEFAULT_DEBUG_FRAMES
    ensures cfg.Some? && (parseInt(cfg.value).None? || parseInt(cfg.value).value < 0) ==>
      DebugFramesMax(env, leftover, cfg, parseInt) == DebugFramesMax(env, leftover, None, parseInt)
  {
  }

  /** The same quirk for the overlay flag. A value of eight or more
      characters does not fit the buffer, yet its first character is still
      tested: the outcome then depends on what the buffer was left holding
      (on an untouched, zeroed buffer the overlay is on). */
  lemma ConfigOverridesEnvForDebugOverlay(env: Option<string>, leftover: string, cfg: Option<string>)
    ensures cfg.Some? ==> DebugOverlay(env, leftover, cfg) == IsTruthy(cfg.value)
    ensures cfg.None? && env.Some? && 0 < |env.value| < 8 ==>
      DebugOverlay(env, leftover, cfg) == (env.value[0] != '0')
    ensures cfg.None? && env.Some? && |env.value| >= 8 ==>
      DebugOverlay(env, leftover, cfg) == (leftover == [] || leftover[0] != '0')
    ensures cfg.None? && (env.None? || env.value == []) ==> !DebugOverlay(env, leftover, cfg)
  {
  }

  // ---------------------------------------------------------------------
  // Backfilling the FakeHDR block into an existing per-user config file
  // ---------------------------------------------------------------------

  const FAKE_HDR_KEY: string := "fakehdr_enable"

  /** The block appended to an existing per-user config file. */
  const FAKE_HDR_BLOCK: string :=
    "\n# Optional FakeHDR pass (applied after CAS, before Levels)\n"
    + FAKE_HDR_KEY + "=0\n"
    + "fakehdr_power=1.30\nfakehdr_radius1=0.793\nfakehdr_radius2=0.87\n"

  predicate OccursAt(text: string, pattern: string, i: nat) {
    i + |pattern| <= |text| && text[i..i + |pattern|] == pattern
  }

  /** `std::string::find(pattern) != npos`. */
  predicate Contains(text: string, pattern: string) {
    exists i: nat | i <= |text| :: OccursAt(text, pattern, i)
  }

  /** The config text after the backfill of `xrCreateInstance`: the FakeHDR
      block is appended only when the text lacks `fakehdr_enable`. */
  function BackfillFakeHdr(text: string): (r: string)
    ensures text <= r
    ensures |r| > |text| ==> r[|text|..] == FAKE_HDR_BLOCK
    ensures r == text <==> Contains(text, FAKE_HDR_KEY)
    ensures !Contains(text, FAKE_HDR_KEY) ==> r == text + FAKE_HDR_BLOCK
  {
    if Contains(text, FAKE_HDR_KEY) then text else text + FAKE_HDR_BLOCK
  }

  /** The backfill never removes or changes existing text, and running it a
      second time changes nothing. */
  lemma BackfillIsAdditiveAndIdempotent(text: string)
    ensures text <= BackfillFakeHdr(text)
    ensures BackfillFakeHdr(BackfillFakeHdr(text)) == BackfillFakeHdr(text)
    ensures Contains(BackfillFakeHdr(text), FAKE_HDR_KEY)
  {
    if !Contains(text, FAKE_HDR_KEY) {
      var prefix := "\n# Optional FakeHDR pass (applied after CAS, before Levels)\n";
      var t := text + FAKE_HDR_BLOCK;
      var i := |text| + |prefix|;
      assert t[i..i + |FAKE_HDR_KEY|] == FAKE_HDR_KEY;
      assert OccursAt(t, FAKE_HDR_KEY, i);
    }
  }
}

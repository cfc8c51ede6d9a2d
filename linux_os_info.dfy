/** Operating-system information on Linux: the distribution's pretty name
    from `/etc/os-release`, the host name from `/etc/hostname` and the
    locale from the environment. Reading the files is not modelled: their
    contents (none when a file cannot be read as text) and the environment
    are inputs. */
module LinuxOsInfo {
  import opened Wrappers
  import opened Text

  const OS_NAME: string := "linux"
  const PRETTY_NAME_KEY: string := "PRETTY_NAME="
  const UNKNOWN_HOSTNAME: string := "unknown"
  const DEFAULT_LOCALE: string := "en-US"

  /** The information record handed to the application. */
  datatype OsInfo = OsInfo(name: string, version: string, arch: string, locale: string, hostname: string)

  // ---------------------------------------------------------------------
  // Version

  predicate IsPrettyNameLine(line: string)
  {
    StartsWith(line, PRETTY_NAME_KEY)
  }

  /** The value of a `PRETTY_NAME=` line, without surrounding quotes. */
  function PrettyNameValue(line: string): string
    requires IsPrettyNameLine(line)
  {
    TrimMatches(line[|PRETTY_NAME_KEY|..], '"')
  }

  /** The version the lines of `/etc/os-release` give: the value of the
      first `PRETTY_NAME=` line, or nothing. */
  function VersionFromLines(lines: seq<string>): string
  {
    if lines == [] then ""
    else if IsPrettyNameLine(lines[0]) then PrettyNameValue(lines[0])
    else VersionFromLines(lines[1..])
  }

  /** The version for the contents of `/etc/os-release`; empty when the
      file cannot be read. */
  function OsVersion(osRelease: Option<string>): string
  {
    match osRelease
    case None => ""
    case Some(contents) => VersionFromLines(Lines(contents))
  }

  /** `read_os_version`: the loop over the lines, returning at the first
      line that starts with `PRETTY_NAME=`. */
  method ReadOsVersion(osRelease: Option<string>) returns (version: string)
    ensures version == OsVersion(osRelease)
  {
    if osRelease.None? {
      return "";
    }
    var lines := Lines(osRelease.value);
    var i := 0;
    while i < |lines|
      invariant 0 <= i <= |lines|
      invariant VersionFromLines(lines) == VersionFromLines(lines[i..])
    {
      assert lines[i..][1..] == lines[i + 1..];
      var line := lines[i];
      if StartsWith(line, PRETTY_NAME_KEY) {
        return TrimMatches(line[|PRETTY_NAME_KEY|..], '"');
      }
      i := i + 1;
    }
    return "";
  }

  /** The first `PRETTY_NAME=` line gives the version, whatever follows. */
  lemma {:induction false} FirstPrettyNameDecides(lines: seq<string>, k: nat)
    requires k < |lines| && IsPrettyNameLine(lines[k])
    requires forall j :: 0 <= j < k ==> !IsPrettyNameLine(lines[j])
    ensures VersionFromLines(lines) == PrettyNameValue(lines[k])
  {
    if k > 0 {
      assert lines[1..][k - 1] == lines[k];
      assert forall j :: 0 <= j < k - 1 ==> lines[1..][j] == lines[j + 1];
      FirstPrettyNameDecides(lines[1..], k - 1);
    }
  }

  /** Without a `PRETTY_NAME=` line the version is empty. */
  lemma {:induction false} NoPrettyNameIsEmpty(lines: seq<string>)
    requires forall j :: 0 <= j < |lines| ==> !IsPrettyNameLine(lines[j])
    ensures VersionFromLines(lines) == ""
  {
    if lines != [] {
      assert forall j :: 0 <= j < |lines| - 1 ==> lines[1..][j] == lines[j + 1];
      NoPrettyNameIsEmpty(lines[1..]);
    }
  }

  /** The `PRETTY_NAME=` line of a quoted name, and what it reads back as. */
  lemma QuotedPrettyNameLine(name: string)
    requires name != [] ==> name[0] != '"' && name[|name| - 1] != '"'
    ensures IsPrettyNameLine(PRETTY_NAME_KEY + "\"" + name + "\"")
    ensures PrettyNameValue(PRETTY_NAME_KEY + "\"" + name + "\"") == name
  {
    var line := PRETTY_NAME_KEY + "\"" + name + "\"";
    assert line[..|PRETTY_NAME_KEY|] == PRETTY_NAME_KEY;
    assert line[|PRETTY_NAME_KEY|..] == "\"" + name + "\"";
    TrimWherePadded("\"", name, "\"", IsChar('"'));
  }

  /** In `before + [line] + after`, `line` sits at index `|before|` and the
      lines ahead of it are those of `before`. */
  lemma LineAfter(before: seq<string>, line: string, after: seq<string>)
    ensures var lines := before + [line] + after;
      && |before| < |lines| && lines[|before|] == line
      && forall j :: 0 <= j < |before| ==> lines[j] == before[j]
  {
  }

  /** A quoted pretty name written after other settings is read back
      without its quotes, when it neither starts nor ends with a quote. */
  lemma PrettyNameRoundTrip(before: seq<string>, name: string, after: seq<string>)
    requires forall j :: 0 <= j < |before| ==> !IsPrettyNameLine(before[j])
    requires name != [] ==> name[0] != '"' && name[|name| - 1] != '"'
    ensures VersionFromLines(before + [PRETTY_NAME_KEY + "\"" + name + "\""] + after) == name
  {
    var line := PRETTY_NAME_KEY + "\"" + name + "\"";
    QuotedPrettyNameLine(name);
    LineAfter(before, line, after);
    FirstPrettyNameDecides(before + [line] + after, |before|);
  }

  // ---------------------------------------------------------------------
  // Host name

  /** `read_hostname`: the contents of `/etc/hostname` without surrounding
      white space, or `unknown` when the file cannot be read. */
  function Hostname(contents: Option<string>): (name: string)
    ensures contents.None? ==> name == UNKNOWN_HOSTNAME
    ensures contents.Some? ==> |name| <= |contents.value|
    ensures contents.Some? && name != [] ==> !IsWhitespace(name[0]) && !IsWhitespace(name[|name| - 1])
  {
    match contents
    case None => UNKNOWN_HOSTNAME
    case Some(text) => Trim(text)
  }

  /** A host name surrounded by any white space is read back without it. */
  lemma HostnamePadded(pre: string, name: string, post: string)
    requires forall i :: 0 <= i < |pre| ==> IsWhitespace(pre[i])
    requires forall i :: 0 <= i < |post| ==> IsWhitespace(post[i])
    requires name != [] ==> !IsWhitespace(name[0]) && !IsWhitespace(name[|name| - 1])
    ensures Hostname(Some(pre + name + post)) == name
  {
    TrimWherePadded(pre, name, post, IsWhitespace);
  }

  /** A host name written with a final line ending is read back. */
  lemma HostnameRoundTrip(name: string)
    requires name != [] ==> !IsWhitespace(name[0]) && !IsWhitespace(name[|name| - 1])
    ensures Hostname(Some(name + "\n")) == name
  {
    assert [] + name + "\n" == name + "\n";
    HostnamePadded([], name, "\n");
  }

  // ---------------------------------------------------------------------
  // Locale

  /** The environment variables that hold valid Unicode text. */
  type Env = map<string, string>

  /** A POSIX locale name as a language tag: the part before the first `.`
      (the codeset goes), with `_` replaced by `-`. */
  function LocaleTag(locale: string): (tag: string)
    ensures '.' !in tag && '_' !in tag
  {
    var base := BeforeFirst(locale, '.');
    ReplaceCharIsMap(base, '_', '-');
    ReplaceAll(base, "_", "-")
  }

  /** `read_locale`: `LC_ALL` when it is set, even to an empty value, else
      `LANG`, as a language tag; `en-US` when neither is set. */
  function Locale(env: Env): (tag: string)
    ensures '.' !in tag && '_' !in tag
    ensures "LC_ALL" !in env && "LANG" !in env ==> tag == DEFAULT_LOCALE
  {
    if "LC_ALL" in env then LocaleTag(env["LC_ALL"])
    else if "LANG" in env then LocaleTag(env["LANG"])
    else DEFAULT_LOCALE
  }

  /** `LANG` is not looked at when `LC_ALL` is set, and is the only
      variable looked at otherwise. */
  lemma LcAllOverridesLang(env: Env, lang: string)
    ensures "LC_ALL" in env ==> Locale(env["LANG" := lang]) == Locale(env)
    ensures "LC_ALL" !in env ==> Locale(env["LANG" := lang]) == LocaleTag(lang)
  {
    assert "LC_ALL" in env <==> "LC_ALL" in env["LANG" := lang];
    if "LC_ALL" in env {
      assert env["LANG" := lang]["LC_ALL"] == env["LC_ALL"];
    }
  }

  /** A locale `language_TERRITORY.codeset` becomes `language-TERRITORY`. */
  lemma LocaleTagOfPosixName(language: string, territory: string, codeset: string)
    requires '.' !in language && '_' !in language
    requires '.' !in territory && '_' !in territory
    ensures LocaleTag(language + "_" + territory + "." + codeset) == language + "-" + territory
  {
    var base := language + "_" + territory;
    var s := base + "." + codeset;
    assert s[|base|] == '.';
    assert forall i :: 0 <= i < |base| ==> s[i] == base[i];
    assert '.' !in base;
    assert IndexOf(s, '.') == |base|;
    assert BeforeFirst(s, '.') == base;
    ReplaceCharIsMap(base, '_', '-');
    var tag := MapChar(base, '_', '-');
    var expected := language + "-" + territory;
    assert |tag| == |expected|;
    forall i | 0 <= i < |tag|
      ensures tag[i] == expected[i]
    {
      if i < |language| {
        assert base[i] == language[i];
      } else if i > |language| {
        assert base[i] == territory[i - |language| - 1];
      }
    }
  }

  // ---------------------------------------------------------------------
  // The record

  /** `get_os_info`: the name is always `linux`; the architecture is the
      one the program was built for; the version, host name and locale are
      those read above. */
  function GetOsInfo(osRelease: Option<string>, hostnameFile: Option<string>, env: Env, arch: string): (info: OsInfo)
    ensures info.name == OS_NAME && info.arch == arch
    ensures info.version == OsVersion(osRelease)
    ensures info.hostname == Hostname(hostnameFile)
    ensures info.locale == Locale(env)
    ensures '.' !in info.locale && '_' !in info.locale
    ensures hostnameFile.None? ==> info.hostname == UNKNOWN_HOSTNAME
    ensures osRelease.None? ==> info.version == ""
  {
    OsInfo(OS_NAME, OsVersion(osRelease), arch, Locale(env), Hostname(hostnameFile))
  }
}

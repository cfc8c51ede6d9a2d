/** The test-support macros: string literals adjusted for Windows (`path!`,
    `uri!`, `line_endings!`), and the `#[perf]` attribute, which parses its
    arguments and makes the function it marks a test. Token streams are not
    modelled: a literal is its string value, an attribute argument is its
    path and the text of its value, an attribute is its path. Whether the
    target is Windows is a parameter. */
module UtilMacros {
  import opened Wrappers
  import opened Text

  // ---------------------------------------------------------------------
  // path!

  /** `path!`: on Windows every `/` becomes `\`, and a path that then starts
      with `\` gets the drive `C:` in front; elsewhere the literal is
      unchanged. */
  function Path(literal: string, windows: bool): (path: string)
    ensures !windows ==> path == literal
    ensures windows ==> '/' !in path
  {
    if !windows then literal
    else
      var converted := ReplaceAll(literal, "/", "\\");
      ReplaceCharRemovesIt(literal, '/', "\\");
      if StartsWith(converted, "\\") then "C:" + converted else converted
  }

  /** On Windows the result is the literal with its separators converted,
      behind `C:` exactly when the literal starts with a separator of either
      kind. */
  lemma PathOnWindows(literal: string)
    ensures var rooted := literal != [] && (literal[0] == '/' || literal[0] == '\\');
      Path(literal, true) == (if rooted then "C:" else "") + MapChar(literal, '/', '\\')
  {
    ReplaceCharIsMap(literal, '/', '\\');
  }

  /** A Unix absolute path without backslashes is recovered from its
      Windows form by dropping the drive and turning `\` back into `/`. */
  lemma PathRoundTrip(literal: string)
    requires literal != [] && literal[0] == '/' && '\\' !in literal
    ensures var path := Path(literal, true);
      |path| >= 2 && path[..2] == "C:" && MapChar(path[2..], '\\', '/') == literal
  {
    PathOnWindows(literal);
    var converted := MapChar(literal, '/', '\\');
    var path := Path(literal, true);
    assert path == "C:" + converted;
    assert path[2..] == converted;
  }

  // ---------------------------------------------------------------------
  // uri!

  const FILE_SCHEME: string := "file:///"
  const WINDOWS_FILE_SCHEME: string := "file:///C:/"

  /** `uri!`: on Windows every `file:///`, found left to right without
      overlap, becomes `file:///C:/`; elsewhere the literal is unchanged. */
  function Uri(literal: string, windows: bool): (uri: string)
    ensures !windows ==> uri == literal
  {
    if windows then ReplaceAll(literal, FILE_SCHEME, WINDOWS_FILE_SCHEME) else literal
  }

  /** A file URI whose path does not itself hold `file:///` gets the drive
      right after the scheme, and nothing else changes. */
  lemma UriOfFilePath(rest: string)
    requires forall k: nat :: !OccursAt(rest, FILE_SCHEME, k)
    ensures Uri(FILE_SCHEME + rest, true) == WINDOWS_FILE_SCHEME + rest
  {
    var literal := FILE_SCHEME + rest;
    assert literal[..|FILE_SCHEME|] == FILE_SCHEME;
    assert literal[|FILE_SCHEME|..] == rest;
    ReplaceAbsent(rest, FILE_SCHEME, WINDOWS_FILE_SCHEME);
  }

  /** A literal without any `file:///` is left alone even on Windows. */
  lemma UriWithoutScheme(literal: string)
    requires forall k: nat :: !OccursAt(literal, FILE_SCHEME, k)
    ensures Uri(literal, true) == literal
  {
    ReplaceAbsent(literal, FILE_SCHEME, WINDOWS_FILE_SCHEME);
  }

  // ---------------------------------------------------------------------
  // line_endings!

  /** `line_endings!`: on Windows every `\n` becomes `\r\n`; elsewhere the
      literal is unchanged. */
  function LineEndings(literal: string, windows: bool): (text: string)
    ensures !windows ==> text == literal
    ensures windows ==> AlwaysPreceded(text, '\n', '\r')
  {
    if windows then
      ReplaceCharPrefixes(literal, '\n', '\r');
      ReplaceAll(literal, "\n", "\r\n")
    else literal
  }

  /** Turning every `\r\n` back into `\n` restores a literal that had no
      carriage return of its own. */
  lemma {:induction false} LineEndingsRoundTrip(literal: string)
    requires '\r' !in literal
    ensures ReplaceAll(LineEndings(literal, true), "\r\n", "\n") == literal
    decreases |literal|
  {
    if literal != [] {
      var tail := literal[1..];
      var converted := LineEndings(literal, true);
      LineEndingsRoundTrip(tail);
      if literal[0] == '\n' {
        assert literal[..1] == "\n";
        assert converted == "\r\n" + LineEndings(tail, true);
        assert converted[..2] == "\r\n" && converted[2..] == LineEndings(tail, true);
      } else {
        assert literal[..1] != "\n";
        assert converted == [literal[0]] + LineEndings(tail, true);
        if |converted| >= 2 {
          assert converted[..2] != "\r\n" by {
            assert converted[0] == literal[0];
          }
          assert converted[1..] == LineEndings(tail, true);
        } else {
          assert tail == [];
        }
      }
      assert [literal[0]] + tail == literal;
    }
  }

  /** The documented example. */
  lemma LineEndingsExample()
    ensures LineEndings("Hello\nWorld", true) == "Hello\r\nWorld"
    ensures LineEndings("Hello\nWorld", false) == "Hello\nWorld"
  {
    ReplaceOneLineFeed("Hello", "World");
    assert "Hello" + "\n" + "World" == "Hello\nWorld";
    assert "Hello" + "\r\n" + "World" == "Hello\r\nWorld";
  }

  /** Two lines joined by one line feed are joined by CR LF instead. */
  lemma ReplaceOneLineFeed(head: string, tail: string)
    requires '\n' !in head && '\n' !in tail
    ensures ReplaceAll(head + "\n" + tail, "\n", "\r\n") == head + "\r\n" + tail
  {
    assert head + "\n" + tail == head + ("\n" + tail);
    ReplaceCharAfterPlain(head, "\n" + tail, '\n', "\r\n");
    assert ("\n" + tail)[..1] == "\n" && ("\n" + tail)[1..] == tail;
    ReplaceCharAfterPlain(tail, [], '\n', "\r\n");
    assert tail + [] == tail;
    assert head + ("\r\n" + tail) == head + "\r\n" + tail;
  }

  // ---------------------------------------------------------------------
  // #[perf] arguments

  /** How much a benchmark matters; `Average` when not given. */
  datatype Importance = Critical | Important | Average | Iffy | Fluff

  const DEFAULT_IMPORTANCE: Importance := Average

  /** `Display for Importance`: the variant's name. */
  function ImportanceName(importance: Importance): (name: string)
    ensures name != [] && 'A' <= name[0] <= 'Z'
  {
    match importance
    case Critical => "Critical"
    case Important => "Important"
    case Average => "Average"
    case Iffy => "Iffy"
    case Fluff => "Fluff"
  }

  /** The argument that selects an importance. */
  function ImportanceFlag(ident: string): (importance: Option<Importance>)
  {
    if ident == "critical" then Some(Critical)
    else if ident == "important" then Some(Important)
    else if ident == "average" then Some(Average)
    else if ident == "iffy" then Some(Iffy)
    else if ident == "fluff" then Some(Fluff)
    else None
  }

  /** Each importance is selected by its displayed name in lower case, and
      no two importances display alike. */
  lemma ImportanceFlagIsLoweredName(importance: Importance, other: Importance)
    ensures ImportanceFlag(Lower(ImportanceName(importance))) == Some(importance)
    ensures ImportanceName(importance) == ImportanceName(other) ==> importance == other
  {
    match importance
    case Critical => assert Lower("Critical") == "critical";
    case Important => assert Lower("Important") == "important";
    case Average => assert Lower("Average") == "average";
    case Iffy => assert Lower("Iffy") == "iffy";
    case Fluff => assert Lower("Fluff") == "fluff";
  }

  /** One argument of `#[perf(...)]`: its path, and the text of the
      expression after `=` (none when there is no `= expr`, or when what
      follows does not parse as an expression). */
  datatype Meta = Meta(path: seq<string>, value: Option<string>)

  datatype PerfArgError =
    | ExpectedValue(path: seq<string>)
    | UnexpectedIdentifier(path: seq<string>)
    | ExpectedComma(path: seq<string>)

  /** `path.is_ident(name)`: a path of the one segment `name`. */
  predicate IsIdent(path: seq<string>, name: string)
  {
    path == [name]
  }

  /** The identifier of a one-segment path, the empty text otherwise (it
      selects nothing). */
  function Ident(path: seq<string>): string
  {
    if |path| == 1 then path[0] else ""
  }

  /** What an argument's path names. */
  datatype ArgKind = IterationsArg | WeightArg | ImportanceArg(importance: Importance) | UnknownArg

  /** The kind of an argument: `iterations`, `weight`, one of the five
      importance flags, or none of these. */
  function Kind(path: seq<string>): (kind: ArgKind)
    ensures kind == IterationsArg <==> IsIdent(path, "iterations")
    ensures kind == WeightArg <==> IsIdent(path, "weight")
    ensures kind.ImportanceArg? <==> ImportanceFlag(Ident(path)).Some?
    ensures kind.ImportanceArg? ==> kind.importance == ImportanceFlag(Ident(path)).value
  {
    if IsIdent(path, "iterations") then IterationsArg
    else if IsIdent(path, "weight") then WeightArg
    else
      match ImportanceFlag(Ident(path))
      case Some(importance) => ImportanceArg(importance)
      case None => UnknownArg
  }

  /** The error `parse_into` reports for an argument, if any: a missing
      value for `iterations` or `weight`, or a path that is none of the
      seven known identifiers. */
  function MetaError(meta: Meta): (error: Option<PerfArgError>)
    ensures error.None? <==>
      || ((IsIdent(meta.path, "iterations") || IsIdent(meta.path, "weight")) && meta.value.Some?)
      || ImportanceFlag(Ident(meta.path)).Some?
  {
    match Kind(meta.path)
    case IterationsArg => if meta.value.Some? then None else Some(ExpectedValue(meta.path))
    case WeightArg => if meta.value.Some? then None else Some(ExpectedValue(meta.path))
    case ImportanceArg(_) => None
    case UnknownArg => Some(UnexpectedIdentifier(meta.path))
  }

  /** The error an argument causes once `syn::meta::parser` has handed it
      to `parse_into`: that of `parse_into` itself, or, for an importance
      flag followed by `= expr`, the parser's complaint that the `=` it
      finds after an accepted argument is not a `,`. */
  function ArgumentError(meta: Meta): (error: Option<PerfArgError>)
    ensures error.None? <==>
      || ((IsIdent(meta.path, "iterations") || IsIdent(meta.path, "weight")) && meta.value.Some?)
      || (ImportanceFlag(Ident(meta.path)).Some? && meta.value.None?)
    ensures MetaError(meta).Some? ==> error == MetaError(meta)
    ensures error == Some(ExpectedComma(meta.path)) <==> Kind(meta.path).ImportanceArg? && meta.value.Some?
  {
    if MetaError(meta).Some? then MetaError(meta)
    else if Kind(meta.path).ImportanceArg? && meta.value.Some? then Some(ExpectedComma(meta.path))
    else None
  }

  /** `PerfArgs`: the parsed arguments. */
  class PerfArgs {
    var iterations: Option<string>
    var weight: Option<string>
    var importance: Importance

    /** `PerfArgs::default()`. */
    constructor ()
      ensures iterations == None && weight == None && importance == DEFAULT_IMPORTANCE
    {
      iterations := None;
      weight := None;
      importance := DEFAULT_IMPORTANCE;
    }

    /** `parse_into`: the argument sets the field it names; an importance
        flag replaces the importance chosen so far. An argument in error
        changes nothing. */
    method ParseInto(meta: Meta) returns (r: Result<(), PerfArgError>)
      modifies this
      ensures r.Err? <==> MetaError(meta).Some?
      ensures r.Err? ==> r.error == MetaError(meta).value
      ensures iterations == if Kind(meta.path) == IterationsArg && meta.value.Some? then meta.value else old(iterations)
      ensures weight == if Kind(meta.path) == WeightArg && meta.value.Some? then meta.value else old(weight)
      ensures importance == if Kind(meta.path).ImportanceArg? then Kind(meta.path).importance else old(importance)
    {
      if IsIdent(meta.path, "iterations") {
        if meta.value.None? {
          return Err(ExpectedValue(meta.path));
        }
        iterations := meta.value;
      } else if IsIdent(meta.path, "weight") {
        if meta.value.None? {
          return Err(ExpectedValue(meta.path));
        }
        weight := meta.value;
      } else if IsIdent(meta.path, "critical") {
        importance := Critical;
      } else if IsIdent(meta.path, "important") {
        importance := Important;
      } else if IsIdent(meta.path, "average") {
        importance := Average;
      } else if IsIdent(meta.path, "iffy") {
        importance := Iffy;
      } else if IsIdent(meta.path, "fluff") {
        importance := Fluff;
      } else {
        return Err(UnexpectedIdentifier(meta.path));
      }
      return Ok(());
    }
  }

  /** The error of the first argument in error, if any. */
  function FirstError(metas: seq<Meta>): (error: Option<PerfArgError>)
    ensures error.None? <==> forall i :: 0 <= i < |metas| ==> ArgumentError(metas[i]).None?
    ensures error.Some? ==> exists i :: 0 <= i < |metas| && error == ArgumentError(metas[i])
  {
    if metas == [] then None
    else if ArgumentError(metas[0]).Some? then ArgumentError(metas[0])
    else
      var rest := FirstError(metas[1..]);
      assert rest.Some? ==> exists i :: 1 <= i < |metas| && rest == ArgumentError(metas[i]) by {
        if rest.Some? {
          var j :| 0 <= j < |metas[1..]| && rest == ArgumentError(metas[1..][j]);
          assert metas[1..][j] == metas[j + 1];
        }
      }
      rest
  }

  /** The importance the arguments select: that of the last importance
      flag, or the default. */
  function SelectedImportance(metas: seq<Meta>): Importance
  {
    if metas == [] then DEFAULT_IMPORTANCE
    else
      var kind := Kind(metas[|metas| - 1].path);
      if kind.ImportanceArg? then kind.importance
      else SelectedImportance(metas[..|metas| - 1])
  }

  /** The value the last argument of the given kind with a value gives, or
      none. */
  function SelectedValue(metas: seq<Meta>, kind: ArgKind): Option<string>
  {
    if metas == [] then None
    else
      var last := metas[|metas| - 1];
      if Kind(last.path) == kind && last.value.Some? then last.value
      else SelectedValue(metas[..|metas| - 1], kind)
  }

  /** The last importance flag wins, whatever follows it. */
  lemma {:induction false} LastImportanceFlagWins(metas: seq<Meta>, k: nat)
    requires k < |metas| && ImportanceFlag(Ident(metas[k].path)).Some?
    requires forall j :: k < j < |metas| ==> ImportanceFlag(Ident(metas[j].path)).None?
    ensures SelectedImportance(metas) == ImportanceFlag(Ident(metas[k].path)).value
    decreases |metas|
  {
    if k < |metas| - 1 {
      var prefix := metas[..|metas| - 1];
      assert prefix[k] == metas[k];
      assert forall j :: k < j < |prefix| ==> prefix[j] == metas[j];
      LastImportanceFlagWins(prefix, k);
    }
  }

  /** Without an importance flag the importance is `Average`. */
  lemma {:induction false} NoImportanceFlagIsAverage(metas: seq<Meta>)
    requires forall j :: 0 <= j < |metas| ==> ImportanceFlag(Ident(metas[j].path)).None?
    ensures SelectedImportance(metas) == Average
    decreases |metas|
  {
    if metas != [] {
      var prefix := metas[..|metas| - 1];
      assert forall j :: 0 <= j < |prefix| ==> prefix[j] == metas[j];
      NoImportanceFlagIsAverage(prefix);
    }
  }

  lemma SelectedAfterOneMore(metas: seq<Meta>, i: nat)
    requires i < |metas|
    ensures var m := metas[i];
      && SelectedValue(metas[..i + 1], IterationsArg) ==
           (if Kind(m.path) == IterationsArg && m.value.Some? then m.value else SelectedValue(metas[..i], IterationsArg))
      && SelectedValue(metas[..i + 1], WeightArg) ==
           (if Kind(m.path) == WeightArg && m.value.Some? then m.value else SelectedValue(metas[..i], WeightArg))
      && SelectedImportance(metas[..i + 1]) ==
           (if Kind(m.path).ImportanceArg? then Kind(m.path).importance else SelectedImportance(metas[..i]))
  {
    var prefix := metas[..i + 1];
    assert prefix[|prefix| - 1] == metas[i];
    assert prefix[..|prefix| - 1] == metas[..i];
  }

  lemma FirstErrorAt(metas: seq<Meta>, i: nat)
    requires i < |metas|
    ensures FirstError(metas[i..]) ==
      if ArgumentError(metas[i]).Some? then ArgumentError(metas[i]) else FirstError(metas[i + 1..])
  {
    assert metas[i..][0] == metas[i] && metas[i..][1..] == metas[i + 1..];
  }

  /** `syn::meta::parser` driving `parse_into`: the arguments in order,
      stopping at the first one in error, including an importance flag that
      `parse_into` accepted but that is followed by `= expr` where the
      parser expects `,` or the end. When all are accepted, each field
      holds what the last argument naming it gave, or its default. */
  method ParsePerfArgs(metas: seq<Meta>) returns (args: PerfArgs, r: Result<(), PerfArgError>)
    ensures fresh(args)
    ensures r.Err? <==> FirstError(metas).Some?
    ensures r.Err? ==> r.error == FirstError(metas).value
    ensures r.Ok? ==>
      && args.iterations == SelectedValue(metas, IterationsArg)
      && args.weight == SelectedValue(metas, WeightArg)
      && args.importance == SelectedImportance(metas)
  {
    args := new PerfArgs();
    var i := 0;
    while i < |metas|
      invariant 0 <= i <= |metas|
      invariant FirstError(metas) == FirstError(metas[i..])
      invariant args.iterations == SelectedValue(metas[..i], IterationsArg)
      invariant args.weight == SelectedValue(metas[..i], WeightArg)
      invariant args.importance == SelectedImportance(metas[..i])
    {
      FirstErrorAt(metas, i);
      SelectedAfterOneMore(metas, i);
      var step := args.ParseInto(metas[i]);
      if step.Err? {
        return args, step;
      }
      if Kind(metas[i].path).ImportanceArg? && metas[i].value.Some? {
        return args, Err(ExpectedComma(metas[i].path));
      }
      i := i + 1;
    }
    assert metas[..i] == metas;
    return args, Ok(());
  }

  // ---------------------------------------------------------------------
  // #[perf]

  /** An attribute on the test function, as the segments of its path. */
  datatype Attribute = Attribute(path: seq<string>)

  const TEST_ATTRIBUTE: Attribute := Attribute(["test"])
  /** `#[allow(non_snake_case)]`. */
  const ALLOW_NON_SNAKE_CASE: Attribute := Attribute(["allow"])

  /** An attribute whose path ends in `test`: `#[test]`, `#[gpui::test]`. */
  predicate IsTestAttribute(attribute: Attribute)
  {
    attribute.path != [] && attribute.path[|attribute.path| - 1] == "test"
  }

  predicate HasTestAttribute(attrs: seq<Attribute>)
  {
    exists i :: 0 <= i < |attrs| && IsTestAttribute(attrs[i])
  }

  /** The attributes `#[perf]` leaves on the function: the original ones,
      then `#[test]` unless one of them already is a test attribute, then
      `#[allow(non_snake_case)]`. */
  method PerfAttributes(attrs: seq<Attribute>) returns (result: seq<Attribute>)
    ensures HasTestAttribute(result)
    ensures |result| == |attrs| + (if HasTestAttribute(attrs) then 1 else 2)
    ensures result[..|attrs|] == attrs
    ensures !HasTestAttribute(attrs) ==> result[|attrs|] == TEST_ATTRIBUTE
    ensures result[|result| - 1] == ALLOW_NON_SNAKE_CASE
  {
    result := attrs;
    if !HasTestAttribute(attrs) {
      result := result + [TEST_ATTRIBUTE];
      assert IsTestAttribute(result[|attrs|]);
    }
    result := result + [ALLOW_NON_SNAKE_CASE];
    assert result[..|attrs|] == attrs;
    if HasTestAttribute(attrs) {
      var i :| 0 <= i < |attrs| && IsTestAttribute(attrs[i]);
      assert result[i] == attrs[i];
    } else {
      assert IsTestAttribute(result[|attrs|]);
    }
  }

  /** `perf` without the `perf-enabled` feature: the arguments are parsed,
      and an argument in error fails the expansion; otherwise the function
      comes back unchanged but for its attributes. */
  method Perf(ourAttr: seq<Meta>, attrs: seq<Attribute>) returns (r: Result<seq<Attribute>, PerfArgError>)
    ensures r.Err? <==> FirstError(ourAttr).Some?
    ensures r.Err? ==> r.error == FirstError(ourAttr).value
    ensures r.Ok? ==>
      && HasTestAttribute(r.value)
      && |r.value| == |attrs| + (if HasTestAttribute(attrs) then 1 else 2)
      && r.value[..|attrs|] == attrs
      && (!HasTestAttribute(attrs) ==> r.value[|attrs|] == TEST_ATTRIBUTE)
      && r.value[|r.value| - 1] == ALLOW_NON_SNAKE_CASE
  {
    var args, parsed := ParsePerfArgs(ourAttr);
    if parsed.Err? {
      return Err(parsed.error);
    }
    var result := PerfAttributes(attrs);
    return Ok(result);
  }
}

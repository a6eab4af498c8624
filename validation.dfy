/**
 * Validators for builds and build configurations. Each returns the ordered
 * list of field errors it found; an empty list means the object is valid.
 * The URL parser behind `isValidURL` is not part of this model: it is the
 * predicate `urlOk` every validator takes.
 */
module BuildValidation {
  import opened BuildApi
  import opened Wrappers
  import Strings

  datatype ErrorType = FieldRequired | FieldInvalid

  /**
   * A field error: its kind and the path of the offending field, one
   * component per element; the field string the source reports is the path
   * joined with '.' (see Field).
   */
  datatype ValidationError = ValidationError(kind: ErrorType, path: seq<string>)

  function Field(e: ValidationError): string { Strings.Join(e.path, '.') }

  function Required(path: seq<string>): ValidationError { ValidationError(FieldRequired, path) }

  function Invalid(path: seq<string>): ValidationError { ValidationError(FieldInvalid, path) }

  /** ErrorList.Prefix: every field path gains the leading component `name`. */
  function Prefix(errs: seq<ValidationError>, name: string): (r: seq<ValidationError>)
    ensures |r| == |errs|
    ensures forall i :: 0 <= i < |r| ==> r[i].kind == errs[i].kind && r[i].path == [name] + errs[i].path
  {
    seq(|errs|, i requires 0 <= i < |errs| => ValidationError(errs[i].kind, [name] + errs[i].path))
  }

  // ------------------------------------------------------------ validity, stated directly

  /** A usable source: present, Git, with a non-empty URI the URL parser accepts. */
  predicate SourceComplete(src: Option<SourceControl>, urlOk: string -> bool) {
    src.Some? && src.value.git.Some? && src.value.git.value.uri != "" && urlOk(src.value.git.value.uri)
  }

  predicate InputComplete(input: BuildInput, urlOk: string -> bool) {
    && SourceComplete(input.source, urlOk)
    && input.imageTag != ""
    && (input.stiInput.Some? ==> input.stiInput.value.builderImage != "")
  }

  /** The errors a build input can produce come in this order: source, imageTag, stiBuild. */
  function Rank(e: ValidationError): nat {
    if |e.path| > 0 && e.path[0] == "source" then 0
    else if e.path == ["imageTag"] then 1
    else 2
  }

  predicate RankedInOrder(errs: seq<ValidationError>) {
    forall i, j :: 0 <= i < j < |errs| ==> Rank(errs[i]) < Rank(errs[j])
  }

  // ------------------------------------------------------------ the validators

  /** validateSource: at most one error, the first missing or bad link of source -> git -> URI. */
  function ValidateSource(src: Option<SourceControl>, urlOk: string -> bool): (r: seq<ValidationError>)
    ensures |r| <= 1
    ensures r == [] <==> SourceComplete(src, urlOk)
    ensures src.None? ==> r == [Required(["source"])]
    ensures src.Some? && src.value.git.None? ==> r == [Required(["git"])]
    ensures src.Some? && src.value.git.Some? ==>
      var uri := src.value.git.value.uri;
      r == (if uri == "" then [Required(["git", "URI"])] else if !urlOk(uri) then [Invalid(["git", "URI"])] else [])
  {
    match src
    case None => [Required(["source"])]
    case Some(s) =>
      match s.git
      case None => [Required(["git"])]
      case Some(g) =>
        if |g.uri| == 0 then [Required(["git", "URI"])]
        else if !urlOk(g.uri) then [Invalid(["git", "URI"])]
        else []
  }

  /** validateSTIBuild: one required "builderImage" error exactly when the builder image is empty. */
  function ValidateSTIBuild(sti: STIBuildInput): (r: seq<ValidationError>)
    ensures r == (if sti.builderImage == "" then [Required(["builderImage"])] else [])
  {
    if |sti.builderImage| == 0 then [Required(["builderImage"])] else []
  }

  /** validateBuildInput: source errors, then the image tag, then STI errors when an STI input is present. */
  function ValidateBuildInput(input: BuildInput, urlOk: string -> bool): (r: seq<ValidationError>)
    ensures |r| <= 3
    ensures r == [] <==> InputComplete(input, urlOk)
    ensures RankedInOrder(r)
    ensures Required(["imageTag"]) in r <==> input.imageTag == ""
    ensures Required(["stiBuild", "builderImage"]) in r <==>
      input.stiInput.Some? && input.stiInput.value.builderImage == ""
    ensures (exists i :: 0 <= i < |r| && Rank(r[i]) == 0) <==> !SourceComplete(input.source, urlOk)
    ensures r == Prefix(ValidateSource(input.source, urlOk), "source")
                 + (if input.imageTag == "" then [Required(["imageTag"])] else [])
                 + (if input.stiInput.Some? then Prefix(ValidateSTIBuild(input.stiInput.value), "stiBuild") else [])
  {
    var fromSource := SourceErrors(input, urlOk);
    var fromTag := ImageTagErrors(input);
    var fromSti := STIErrors(input);
    RankedConcat(fromSource, fromTag, fromSti);
    assert Rank(Required(["imageTag"])) == 1;
    assert Rank(Required(["stiBuild", "builderImage"])) == 2;
    fromSource + fromTag + fromSti
  }

  /** Three lists of at most one error each, of ranks 0, 1 and 2, concatenate to a list ranked in order. */
  lemma RankedConcat(a: seq<ValidationError>, b: seq<ValidationError>, c: seq<ValidationError>)
    requires |a| <= 1 && |b| <= 1 && |c| <= 1
    requires forall e :: e in a ==> Rank(e) == 0
    requires forall e :: e in b ==> Rank(e) == 1
    requires forall e :: e in c ==> Rank(e) == 2
    ensures RankedInOrder(a + b + c)
    ensures forall e :: e in a + b + c <==> e in a || e in b || e in c
    ensures (exists i :: 0 <= i < |a + b + c| && Rank((a + b + c)[i]) == 0) <==> a != []
  {
    var r := a + b + c;
    forall i, j | 0 <= i < j < |r| ensures Rank(r[i]) < Rank(r[j]) {
      if i < |a| {
        assert r[i] in a;
        if j < |a| + |b| { assert r[j] in b; } else { assert r[j] in c; }
      } else {
        assert r[i] in b && r[j] in c;
      }
    }
    if a != [] { assert r[0] in a; }
    forall i | 0 <= i < |r| && a == [] ensures Rank(r[i]) != 0 {
      assert r[i] in b || r[i] in c;
    }
  }

  /** The first append of validateBuildInput: the source's errors under "source". */
  function SourceErrors(input: BuildInput, urlOk: string -> bool): (r: seq<ValidationError>)
    ensures |r| <= 1 && (r == [] <==> SourceComplete(input.source, urlOk))
    ensures forall e :: e in r ==> Rank(e) == 0 && |e.path| > 1
  {
    Prefix(ValidateSource(input.source, urlOk), "source")
  }

  /** The second append of validateBuildInput. */
  function ImageTagErrors(input: BuildInput): (r: seq<ValidationError>)
    ensures r == if input.imageTag == "" then [Required(["imageTag"])] else []
    ensures forall e :: e in r ==> Rank(e) == 1 && e.path[0] != "stiBuild"
  {
    if |input.imageTag| == 0 then [Required(["imageTag"])] else []
  }

  /** The third append of validateBuildInput: STI errors under "stiBuild", when STI input is present. */
  function STIErrors(input: BuildInput): (r: seq<ValidationError>)
    ensures r == if input.stiInput.Some? && input.stiInput.value.builderImage == ""
                 then [Required(["stiBuild", "builderImage"])] else []
    ensures forall e :: e in r ==> Rank(e) == 2
  {
    assert ["stiBuild"] + ["builderImage"] == ["stiBuild", "builderImage"];
    if input.stiInput.Some? then Prefix(ValidateSTIBuild(input.stiInput.value), "stiBuild") else []
  }

  /** Every error of a list lies under the path component `name`. */
  predicate AllUnder(errs: seq<ValidationError>, name: string) {
    forall i :: 0 <= i < |errs| ==> |errs[i].path| > 1 && errs[i].path[0] == name
  }

  /** ValidateBuild: "id" when the ID is empty, then the input's errors under "input". */
  function ValidateBuild(build: Build, urlOk: string -> bool): (r: seq<ValidationError>)
    ensures |r| <= 4
    ensures r == [] <==> build.id != "" && InputComplete(build.input, urlOk)
    ensures (|r| > 0 && r[0] == Required(["id"])) <==> build.id == ""
    ensures AllUnder(if build.id == "" then r[1..] else r, "input")
    ensures InputComplete(build.input, urlOk) ==> (|r| == 1 <==> build.id == "")
    ensures r == (if build.id == "" then [Required(["id"])] else []) + Prefix(ValidateBuildInput(build.input, urlOk), "input")
  {
    IdThenInput(build.id, build.input, "input", urlOk)
  }

  /** The shared shape of ValidateBuild and ValidateBuildConfig. */
  function IdThenInput(id: string, input: BuildInput, name: string, urlOk: string -> bool): (r: seq<ValidationError>)
    requires name != "id"
    ensures |r| <= 4
    ensures r == [] <==> id != "" && InputComplete(input, urlOk)
    ensures (|r| > 0 && r[0] == Required(["id"])) <==> id == ""
    ensures AllUnder(if id == "" then r[1..] else r, name)
    ensures InputComplete(input, urlOk) ==> (|r| == 1 <==> id == "")
    ensures r == (if id == "" then [Required(["id"])] else []) + Prefix(ValidateBuildInput(input, urlOk), name)
  {
    var inputErrs := Prefix(ValidateBuildInput(input, urlOk), name);
    var head := if |id| == 0 then [Required(["id"])] else [];
    assert AllUnder(inputErrs, name) by {
      forall i | 0 <= i < |inputErrs| ensures |inputErrs[i].path| > 1 && inputErrs[i].path[0] == name {
        assert ValidateBuildInput(input, urlOk)[i] in ValidateBuildInput(input, urlOk);
      }
    }
    assert inputErrs != [] ==> inputErrs[0].path != ["id"];
    assert (head + inputErrs)[|head|..] == inputErrs;
    head + inputErrs
  }

  /** ValidateBuildConfig: as ValidateBuild, with the input's errors under "desiredInput". */
  function ValidateBuildConfig(config: BuildConfig, urlOk: string -> bool): (r: seq<ValidationError>)
    ensures |r| <= 4
    ensures r == [] <==> config.id != "" && InputComplete(config.desiredInput, urlOk)
    ensures (|r| > 0 && r[0] == Required(["id"])) <==> config.id == ""
    ensures AllUnder(if config.id == "" then r[1..] else r, "desiredInput")
    ensures InputComplete(config.desiredInput, urlOk) ==> (|r| == 1 <==> config.id == "")
    ensures r == (if config.id == "" then [Required(["id"])] else []) + Prefix(ValidateBuildInput(config.desiredInput, urlOk), "desiredInput")
  {
    IdThenInput(config.id, config.desiredInput, "desiredInput", urlOk)
  }

  /**
   * The cases of the package's input test, against the current field paths:
   * each bad input yields exactly the one error it targets, given a URL parser
   * that rejects "::" and accepts the repository URL.
   */
  lemma BuildInputSingleErrors(urlOk: string -> bool, goodUri: string)
    requires !urlOk("::") && goodUri != "" && urlOk(goodUri)
    ensures var git := Some(SourceControl(Some(GitSourceControl(goodUri, ""))));
      && ValidateBuildInput(BuildInput(Some(SourceControl(Some(GitSourceControl("", "")))), "repository/data", "", None), urlOk)
           == [Required(["source", "git", "URI"])]
      && ValidateBuildInput(BuildInput(Some(SourceControl(Some(GitSourceControl("::", "")))), "repository/data", "", None), urlOk)
           == [Invalid(["source", "git", "URI"])]
      && ValidateBuildInput(BuildInput(git, "", "", None), urlOk) == [Required(["imageTag"])]
      && ValidateBuildInput(BuildInput(git, "repository/data", "", Some(STIBuildInput(""))), urlOk)
           == [Required(["stiBuild", "builderImage"])]
  {
    assert ["source"] + ["git", "URI"] == ["source", "git", "URI"];
    assert ["stiBuild"] + ["builderImage"] == ["stiBuild", "builderImage"];
  }

  /** The field string of a prefixed error is the prefix, a dot, and the original field string. */
  lemma FieldOfPrefixed(e: ValidationError, name: string)
    requires |e.path| >= 1
    ensures Field(ValidationError(e.kind, [name] + e.path)) == name + "." + Field(e)
  {
    assert ([name] + e.path)[1..] == e.path;
  }
}

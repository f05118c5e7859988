/**
 * The deployer's own command-line client. Its names, checks and progress
 * display are those of `Client`; what it adds is that a release may be
 * given inline as JSON or as the path of a file holding it.
 */
module DeployerClient {
  import opened Wrappers
  import opened Text
  import Client

  /** The characters trimmed off a file-or-JSON argument. */
  const Cutset := {' ', '\n'}

  /** `strings.TrimLeft(s, " \n")`. */
  function TrimLeft(s: string): (r: string)
    ensures |r| <= |s| && r == s[|s| - |r|..]
    ensures forall k :: 0 <= k < |s| - |r| ==> s[k] in Cutset
    ensures r == [] || r[0] !in Cutset
  {
    if s != [] && s[0] in Cutset then TrimLeft(s[1..]) else s
  }

  /** `strings.TrimRight(s, " \n")`. */
  function TrimRight(s: string): (r: string)
    ensures |r| <= |s| && r == s[..|r|]
    ensures forall k :: |r| <= k < |s| ==> s[k] in Cutset
    ensures r == [] || r[|r| - 1] !in Cutset
  {
    if s != [] && s[|s| - 1] in Cutset then TrimRight(s[..|s| - 1]) else s
  }

  /** `strings.Trim(s, " \n")`: `s` without its leading and trailing spaces and newlines. */
  function Trim(s: string): (r: string)
    ensures |r| <= |TrimLeft(s)| <= |s|
    ensures r == s[|s| - |TrimLeft(s)|..|s| - |TrimLeft(s)| + |r|]
    ensures r == [] || (r[0] !in Cutset && r[|r| - 1] !in Cutset)
  {
    var l := TrimLeft(s);
    var r := TrimRight(l);
    SliceOfSuffix(s, |s| - |l|, |r|);
    assert r != [] ==> r[0] == l[0];
    r
  }

  /** A prefix of a suffix is a slice. */
  lemma SliceOfSuffix(s: string, i: nat, k: nat)
    requires i + k <= |s|
    ensures s[i..][..k] == s[i..i + k]
  {
  }

  /** Trimming twice trims no more than trimming once. */
  lemma TrimIdempotent(s: string)
    ensures Trim(Trim(s)) == Trim(s)
  {
  }

  /** Leading spaces and newlines are dropped up to the first other character. */
  lemma {:induction false} TrimLeftPrefix(pre: string, rest: string)
    requires forall k :: 0 <= k < |pre| ==> pre[k] in Cutset
    requires rest == [] || rest[0] !in Cutset
    ensures TrimLeft(pre + rest) == rest
    decreases |pre|
  {
    if pre != [] {
      assert (pre + rest)[1..] == pre[1..] + rest;
      TrimLeftPrefix(pre[1..], rest);
    } else {
      assert pre + rest == rest;
    }
  }

  /** Why a file-or-JSON argument could not be loaded. */
  datatype LoadError = NoFileOrJSON | ReadFailed(path: string) | ParseFailed(message: string) | Invalid(Client.ClientError)

  /**
   * `fileOrJSON`: nil is an error; an argument whose trimmed text starts
   * with `{` is the JSON itself, returned as given; anything else is the
   * path of a file to read. The files readable by the client are `files`.
   */
  function FileOrJSON(arg: Option<string>, files: map<string, string>): (r: Result<string, LoadError>)
    requires arg.Some? ==> Trim(arg.value) != ""
    ensures arg.None? ==> r == Err(NoFileOrJSON)
    ensures arg.Some? && Trim(arg.value)[0] == '{' ==> r == Ok(arg.value)
    ensures arg.Some? && Trim(arg.value)[0] != '{' ==>
              r == (if arg.value in files then Ok(files[arg.value]) else Err(ReadFailed(arg.value)))
  {
    if arg.None? then Err(NoFileOrJSON)
    else
      var raw := Trim(arg.value);
      if raw[0] == '{' then Ok(arg.value)
      else if arg.value in files then Ok(files[arg.value])
      else Err(ReadFailed(arg.value))
  }

  /**
   * JSON given inline, after any spaces and newlines, is not read from a
   * file and is returned as given, untrimmed.
   */
  lemma InlineJSONKeptAsGiven(pre: string, post: string, files: map<string, string>)
    requires forall k :: 0 <= k < |pre| ==> pre[k] in Cutset
    ensures Trim(pre + "{" + post) != [] && Trim(pre + "{" + post)[0] == '{'
    ensures FileOrJSON(Some(pre + "{" + post), files) == Ok(pre + "{" + post)
  {
    assert pre + "{" + post == pre + ("{" + post);
    TrimLeftPrefix(pre, "{" + post);
    var r := TrimRight("{" + post);
    assert ("{" + post)[0] == '{' && '{' !in Cutset;
  }

  /** The release fields the deployer client reads from its argument. */
  datatype ParsedRelease = ParsedRelease(attributes: Client.ClientRelease, userData: Option<string>)

  /** The user data that stands for the `.userdata` file beside the release file. */
  const UserDataFilePlaceholder := "{{USER_DATA_FILE}}"

  /**
   * `releaseFromFileOrJSON`: load the argument, decode it with `parse`,
   * swap a placeholder user data for the `.userdata` file beside the
   * argument, fill in the region and account defaults with `setDefaults`
   * (the external `SetDefaultRegionAccount`), and check the client
   * attributes.
   */
  function ReleaseFromFileOrJSON(arg: Option<string>, files: map<string, string>, parse: string -> Result<ParsedRelease, string>,
                                 setDefaults: Client.ClientRelease -> Client.ClientRelease)
    : (r: Result<ParsedRelease, LoadError>)
    requires arg.Some? ==> Trim(arg.value) != ""
    ensures r.Ok? ==> arg.Some? && FileOrJSON(arg, files).Ok? && parse(FileOrJSON(arg, files).value).Ok?
    ensures r.Ok? ==> Client.ValidateClientAttributes(Some(r.value.attributes)) == Pass
    ensures r.Ok? ==> r.value.attributes == setDefaults(parse(FileOrJSON(arg, files).value).value.attributes)
    ensures r.Ok? && parse(FileOrJSON(arg, files).value).value.userData == Some(UserDataFilePlaceholder) ==>
              arg.value + ".userdata" in files && r.value.userData == Some(files[arg.value + ".userdata"])
    ensures r.Ok? && parse(FileOrJSON(arg, files).value).value.userData != Some(UserDataFilePlaceholder) ==>
              r.value.userData == parse(FileOrJSON(arg, files).value).value.userData
    ensures (FileOrJSON(arg, files).Ok? && parse(FileOrJSON(arg, files).value).Ok?
             && parse(FileOrJSON(arg, files).value).value.userData == Some(UserDataFilePlaceholder)
             && arg.value + ".userdata" !in files) ==> r == Err(ReadFailed(arg.value + ".userdata"))
    ensures FileOrJSON(arg, files).Err? ==> r == Err(FileOrJSON(arg, files).error)
    ensures FileOrJSON(arg, files).Ok? && parse(FileOrJSON(arg, files).value).Err? ==>
              r == Err(ParseFailed(parse(FileOrJSON(arg, files).value).error))
  {
    match FileOrJSON(arg, files)
    case Err(e) => Err(e)
    case Ok(jsonRaw) =>
      match parse(jsonRaw)
      case Err(m) => Err(ParseFailed(m))
      case Ok(release) =>
        var userDataPath := arg.value + ".userdata";
        if release.userData == Some(UserDataFilePlaceholder) && userDataPath !in files then Err(ReadFailed(userDataPath))
        else
          var withUserData :=
            if release.userData == Some(UserDataFilePlaceholder) then release.(userData := Some(files[userDataPath]))
            else release;
          var defaulted := withUserData.(attributes := setDefaults(withUserData.attributes));
          match Client.ValidateClientAttributes(Some(defaulted.attributes))
          case Fail(e) => Err(Invalid(e))
          case Pass => Ok(defaulted)
  }

  /**
   * Inline JSON that decodes to a release whose defaulted attributes pass
   * the client checks is accepted as decoded, with those defaults.
   */
  lemma InlineReleaseAccepted(pre: string, post: string, files: map<string, string>,
                              parse: string -> Result<ParsedRelease, string>,
                              setDefaults: Client.ClientRelease -> Client.ClientRelease, decoded: ParsedRelease)
    requires forall k :: 0 <= k < |pre| ==> pre[k] in Cutset
    requires parse(pre + "{" + post) == Ok(decoded) && decoded.userData != Some(UserDataFilePlaceholder)
    requires Client.ValidateClientAttributes(Some(setDefaults(decoded.attributes))) == Pass
    ensures Trim(pre + "{" + post) != []
    ensures ReleaseFromFileOrJSON(Some(pre + "{" + post), files, parse, setDefaults)
            == Ok(decoded.(attributes := setDefaults(decoded.attributes)))
  {
    InlineJSONKeptAsGiven(pre, post, files);
  }

  /**
   * `{}` decodes to a release with no attributes; the region and account
   * defaults give it no project name, so it is turned away.
   */
  lemma EmptyReleaseRejected(files: map<string, string>, parse: string -> Result<ParsedRelease, string>,
                             setDefaults: Client.ClientRelease -> Client.ClientRelease)
    requires parse("{}") == Ok(ParsedRelease(Client.ClientRelease(None, None, None), None))
    requires setDefaults(Client.ClientRelease(None, None, None)).projectName.None?
    ensures ReleaseFromFileOrJSON(Some("{}"), files, parse, setDefaults) == Err(Invalid(Client.ProjectNameUndefined))
  {
    assert "" + "{" + "}" == "{}";
    InlineJSONKeptAsGiven("", "}", files);
  }

  /** `{` is passed to the decoder as JSON, and its decoding error is reported. */
  lemma BadJSONRejected(files: map<string, string>, parse: string -> Result<ParsedRelease, string>,
                        setDefaults: Client.ClientRelease -> Client.ClientRelease)
    requires parse("{").Err?
    ensures ReleaseFromFileOrJSON(Some("{"), files, parse, setDefaults) == Err(ParseFailed(parse("{").error))
  {
    assert "" + "{" + "" == "{";
    InlineJSONKeptAsGiven("", "", files);
  }
}

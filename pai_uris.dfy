/** The client's endpoint URIs: a base URI, given whole or assembled from
    scheme, host and port, and the endpoint paths joined onto it with
    single slashes. */
module PaiUris {
  import opened Types

  const ValidSchemes: seq<string> := ["http", "https"]
  const ApiVersion: string := "v3"

  const SchemeError := ValueError(InvalidScheme)
  const MissingLocationError := ValueError(MissingLocation)

  /** An optional string argument is truthy when it is given and non-empty. */
  predicate Given(o: Option<string>) {
    o.Some? && o.value != ""
  }

  /** `sep` occurs in `s` starting at index `i`. */
  predicate OccursAt(s: string, sep: string, i: int) {
    0 <= i && i + |sep| <= |s| && s[i..i + |sep|] == sep
  }

  /** `s.split(sep)[0]`: everything before the first occurrence of `sep`,
      or all of `s` when there is none. */
  function BeforeFirst(s: string, sep: string): (r: string)
    requires sep != []
    ensures r <= s
    ensures forall i :: 0 <= i < |r| ==> !OccursAt(s, sep, i)
    ensures r == s || OccursAt(s, sep, |r|)
  {
    if |s| < |sep| then s
    else if s[..|sep|] == sep then ""
    else
      var rest := BeforeFirst(s[1..], sep);
      OccursShift(s, sep);
      [s[0]] + rest
  }

  /** Dropping the first character shifts every occurrence by one. */
  lemma OccursShift(s: string, sep: string)
    requires s != []
    ensures forall i {:trigger OccursAt(s, sep, i)} :: 1 <= i ==> (OccursAt(s, sep, i) <==> OccursAt(s[1..], sep, i - 1))
  {
    forall i | 1 <= i
      ensures OccursAt(s, sep, i) <==> OccursAt(s[1..], sep, i - 1)
    {
      if i + |sep| <= |s| {
        assert s[i..i + |sep|] == s[1..][i - 1..i - 1 + |sep|];
      }
    }
  }

  /** Every character is a slash. */
  predicate AllSlashes(s: string) {
    forall i :: 0 <= i < |s| ==> s[i] == '/'
  }

  /** `lstrip("/")`. */
  function TrimStart(s: string): (r: string)
    ensures |r| <= |s|
    ensures r == [] || r[0] != '/'
  {
    if s != [] && s[0] == '/' then TrimStart(s[1..]) else s
  }

  /** `lstrip` removes a run of slashes from the front and nothing else. */
  lemma {:induction false} TrimStartSpan(s: string)
    ensures var r := TrimStart(s);
            r == s[|s| - |r|..] && AllSlashes(s[..|s| - |r|])
  {
    if s != [] && s[0] == '/' {
      TrimStartSpan(s[1..]);
      var r := TrimStart(s[1..]);
      assert s[..|s| - |r|] == ['/'] + s[1..][..|s| - 1 - |r|];
      assert s[1..][|s| - 1 - |r|..] == s[|s| - |r|..];
    }
  }

  /** `rstrip("/")`. */
  function TrimEnd(s: string): (r: string)
    ensures |r| <= |s|
    ensures r == [] || r[|r| - 1] != '/'
  {
    if s != [] && s[|s| - 1] == '/' then TrimEnd(s[..|s| - 1]) else s
  }

  /** `rstrip` removes a run of slashes from the back and nothing else. */
  lemma {:induction false} TrimEndSpan(s: string)
    ensures var r := TrimEnd(s);
            r == s[..|r|] && AllSlashes(s[|r|..])
  {
    if s != [] && s[|s| - 1] == '/' {
      TrimEndSpan(s[..|s| - 1]);
      var r := TrimEnd(s[..|s| - 1]);
      assert s[|r|..] == s[..|s| - 1][|r|..] + ['/'];
      assert s[..|s| - 1][..|r|] == s[..|r|];
    }
  }

  /** `strip("/")`: the segment without its leading and trailing slashes. */
  function StripSlashes(s: string): (r: string)
    ensures |r| <= |s|
    ensures r == [] || (r[0] != '/' && r[|r| - 1] != '/')
  {
    var t := TrimStart(s);
    TrimEndSpan(t);
    TrimEnd(t)
  }

  /** What is stripped is a run of slashes at each end: the result is the
      span of `s` between them. */
  lemma {:induction false} StripSlashesSpan(s: string)
    ensures var i := |s| - |TrimStart(s)|;
            var r := StripSlashes(s);
            r == s[i..i + |r|] && AllSlashes(s[..i]) && AllSlashes(s[i + |r|..])
  {
    var t := TrimStart(s);
    var r := TrimEnd(t);
    var i := |s| - |t|;
    TrimStartSpan(s);
    TrimEndSpan(t);
    assert r == s[i..i + |r|];
    assert s[i + |r|..] == t[|r|..];
  }

  /** A segment with no slash at either end is left alone. */
  lemma StripSlashesKeeps(s: string)
    requires s == [] || (s[0] != '/' && s[|s| - 1] != '/')
    ensures StripSlashes(s) == s
  {
  }

  /** Stripping is idempotent. */
  lemma StripSlashesIdempotent(s: string)
    ensures StripSlashes(StripSlashes(s)) == StripSlashes(s)
  {
    StripSlashesKeeps(StripSlashes(s));
  }

  /** `"/".join(parts)`. */
  function Join(parts: seq<string>): string {
    if parts == [] then ""
    else if |parts| == 1 then parts[0]
    else parts[0] + "/" + Join(parts[1..])
  }

  /** `s.split("/")`: the maximal slash-free pieces, never empty. */
  function Split(s: string): (r: seq<string>)
    ensures |r| >= 1
  {
    if s == [] then [""]
    else if s[0] == '/' then [""] + Split(s[1..])
    else
      var rest := Split(s[1..]);
      [[s[0]] + rest[0]] + rest[1..]
  }

  /** Joining the pieces of a split gives the string back. */
  lemma {:induction false} JoinSplit(s: string)
    ensures Join(Split(s)) == s
  {
    if s != [] {
      JoinSplit(s[1..]);
      if s[0] != '/' {
        var rest := Split(s[1..]);
        if |rest| > 1 {
          assert ([[s[0]] + rest[0]] + rest[1..])[1..] == rest[1..];
          assert Join(rest) == rest[0] + "/" + Join(rest[1..]);
        }
      }
    }
  }

  predicate SlashFree(s: string) {
    forall i :: 0 <= i < |s| ==> s[i] != '/'
  }

  /** Splitting a slash-free piece followed by a slash and more text. */
  lemma {:induction false} SplitAfterPiece(p: string, t: string)
    requires SlashFree(p)
    ensures Split(p + "/" + t) == [p] + Split(t)
    ensures Split(p) == [p]
  {
    if p == [] {
      assert p + "/" + t == "/" + t;
      assert ("/" + t)[1..] == t;
    } else {
      SplitAfterPiece(p[1..], t);
      assert (p + "/" + t)[1..] == p[1..] + "/" + t;
      assert [p[0]] + p[1..] == p;
    }
  }

  /** Splitting a join of slash-free pieces recovers the pieces. */
  lemma {:induction false} SplitJoin(parts: seq<string>)
    requires parts != []
    requires forall k :: 0 <= k < |parts| ==> SlashFree(parts[k])
    ensures Split(Join(parts)) == parts
  {
    SplitAfterPiece(parts[0], "");
    if |parts| > 1 {
      SplitJoin(parts[1..]);
      SplitAfterPiece(parts[0], Join(parts[1..]));
      assert [parts[0]] + parts[1..] == parts;
    }
  }

  /** The segments of `_create_uri`, each stripped of its slashes. */
  function StripAll(args: seq<string>): (r: seq<string>)
    ensures |r| == |args|
    ensures forall k :: 0 <= k < |args| ==> r[k] == StripSlashes(args[k])
  {
    if args == [] then [] else [StripSlashes(args[0])] + StripAll(args[1..])
  }

  /** `_create_uri`: strip every segment, join with single slashes. */
  function CreateUri(args: seq<string>): string {
    Join(StripAll(args))
  }

  /** A URI built from segments whose stripped forms are slash-free splits
      back into exactly those stripped segments. */
  lemma CreateUriSegments(args: seq<string>)
    requires args != []
    requires forall k :: 0 <= k < |args| ==> SlashFree(StripSlashes(args[k]))
    ensures Split(CreateUri(args)) == StripAll(args)
  {
    SplitJoin(StripAll(args));
  }

  /** Joining one more piece adds one slash and the piece. */
  lemma {:induction false} JoinAppend(parts: seq<string>, y: string)
    requires parts != []
    ensures Join(parts + [y]) == Join(parts) + "/" + y
  {
    if |parts| > 1 {
      JoinAppend(parts[1..], y);
      assert (parts + [y])[1..] == parts[1..] + [y];
    }
  }

  /** Appending a segment adds one slash and the stripped segment. */
  lemma CreateUriAppend(args: seq<string>, x: string)
    requires args != []
    ensures CreateUri(args + [x]) == CreateUri(args) + "/" + StripSlashes(x)
  {
    assert StripAll(args + [x]) == StripAll(args) + [StripSlashes(x)];
    JoinAppend(StripAll(args), StripSlashes(x));
  }

  /** Segments with no slash in them go under the stripped base as they are. */
  lemma CreateUriUnder(base: string, segs: seq<string>)
    requires segs != []
    requires forall k :: 0 <= k < |segs| ==> SlashFree(segs[k])
    ensures CreateUri([base] + segs) == StripSlashes(base) + "/" + Join(segs)
  {
    StripAllKeeps(segs);
    StripAllCons(base, segs);
    JoinCons(StripSlashes(base), segs);
  }

  /** Slash-free segments survive stripping. */
  lemma StripAllKeeps(segs: seq<string>)
    requires forall k :: 0 <= k < |segs| ==> SlashFree(segs[k])
    ensures forall k :: 0 <= k < |segs| ==> StripSlashes(segs[k]) == segs[k]
  {
    forall k | 0 <= k < |segs|
      ensures StripSlashes(segs[k]) == segs[k]
    {
      StripSlashesKeeps(segs[k]);
    }
  }

  lemma StripAllCons(base: string, segs: seq<string>)
    requires forall k :: 0 <= k < |segs| ==> StripSlashes(segs[k]) == segs[k]
    ensures StripAll([base] + segs) == [StripSlashes(base)] + segs
  {
    assert ([base] + segs)[1..] == segs;
  }

  lemma JoinCons(x: string, segs: seq<string>)
    requires segs != []
    ensures Join([x] + segs) == x + "/" + Join(segs)
  {
    assert ([x] + segs)[1..] == segs;
  }

  /** The paths of the unversioned endpoints, spelled out. */
  lemma ServicePaths()
    ensures "/" + Join(["healthz"]) == "/healthz"
    ensures "/" + Join(["metrics"]) == "/metrics"
    ensures "/" + Join(["diagnostics"]) == "/diagnostics"
    ensures "/" + Join([""]) == "/"
  {
  }

  /** The path of the bleep endpoint, spelled out. */
  lemma BleepPath()
    ensures "/" + Join(["v3", "bleep"]) == "/v3/bleep"
  {
    assert Join(["bleep"]) == "bleep";
  }

  // The multi-segment paths are spelled out one segment at a time.

  lemma JoinProcessText()
    ensures Join(["process", "text"]) == "process/text"
  {
    JoinCons("process", ["text"]);
  }

  /** The path of the text processing endpoint, spelled out. */
  lemma TextPath()
    ensures "/" + Join(["v3", "process", "text"]) == "/v3/process/text"
  {
    JoinProcessText();
    JoinCons("v3", ["process", "text"]);
  }

  lemma JoinTextReidentify()
    ensures Join(["text", "reidentify"]) == "text/reidentify"
  {
    JoinCons("text", ["reidentify"]);
  }

  lemma JoinProcessTextReidentify()
    ensures Join(["process", "text", "reidentify"]) == "process/text/reidentify"
  {
    JoinTextReidentify();
    JoinCons("process", ["text", "reidentify"]);
  }

  /** The path of the re-identification endpoint, spelled out. */
  lemma ReidentifyPath()
    ensures "/" + Join(["v3", "process", "text", "reidentify"]) == "/v3/process/text/reidentify"
  {
    JoinProcessTextReidentify();
    JoinCons("v3", ["process", "text", "reidentify"]);
  }

  lemma JoinFilesUri()
    ensures Join(["files", "uri"]) == "files/uri"
  {
    JoinCons("files", ["uri"]);
  }

  lemma JoinProcessFilesUri()
    ensures Join(["process", "files", "uri"]) == "process/files/uri"
  {
    JoinFilesUri();
    JoinCons("process", ["files", "uri"]);
  }

  /** The path of the file-by-URI endpoint, spelled out. */
  lemma FileUriPath()
    ensures "/" + Join(["v3", "process", "files", "uri"]) == "/v3/process/files/uri"
  {
    JoinProcessFilesUri();
    JoinCons("v3", ["process", "files", "uri"]);
  }

  lemma JoinFilesBase64()
    ensures Join(["files", "base64"]) == "files/base64"
  {
    JoinCons("files", ["base64"]);
  }

  lemma JoinProcessFilesBase64()
    ensures Join(["process", "files", "base64"]) == "process/files/base64"
  {
    JoinFilesBase64();
    JoinCons("process", ["files", "base64"]);
  }

  /** The path of the file-as-base64 endpoint, spelled out. */
  lemma FileBase64Path()
    ensures "/" + Join(["v3", "process", "files", "base64"]) == "/v3/process/files/base64"
  {
    JoinProcessFilesBase64();
    JoinCons("v3", ["process", "files", "base64"]);
  }

  /** The endpoint segments have no slash in them. */
  lemma EndpointSegments()
    ensures forall k :: 0 <= k < 2 ==> SlashFree(["v3", "bleep"][k])
    ensures forall k :: 0 <= k < 1 ==> SlashFree(["healthz"][k])
    ensures forall k :: 0 <= k < 1 ==> SlashFree(["metrics"][k])
    ensures forall k :: 0 <= k < 1 ==> SlashFree(["diagnostics"][k])
    ensures forall k :: 0 <= k < 3 ==> SlashFree(["v3", "process", "text"][k])
    ensures forall k :: 0 <= k < 4 ==> SlashFree(["v3", "process", "files", "uri"][k])
    ensures forall k :: 0 <= k < 4 ==> SlashFree(["v3", "process", "text", "reidentify"][k])
    ensures forall k :: 0 <= k < 4 ==> SlashFree(["v3", "process", "files", "base64"][k])
    ensures forall k :: 0 <= k < 1 ==> SlashFree([""][k])
  {
  }

  /** Prefixing the base to a slash and a joined path. */
  lemma UnderBase(base: string, joined: string, path: string)
    requires "/" + joined == path
    ensures base + "/" + joined == base + path
  {
  }

  /** The client's endpoint locations, all derived from one base URI;
      each sits under the base with its leading and trailing slashes
      removed. */
  datatype PaiUris = PaiUris(paiUri: string) {

    function Bleep(): (r: string)
      ensures r == StripSlashes(paiUri) + "/v3/bleep"
    {
      BleepPath();
      EndpointSegments();
      UnderBase(StripSlashes(paiUri), Join(["v3", "bleep"]), "/v3/bleep");
      CreateUriUnder(paiUri, [ApiVersion, "bleep"]);
      CreateUri([paiUri] + [ApiVersion, "bleep"])
    }

    function Health(): (r: string)
      ensures r == StripSlashes(paiUri) + "/healthz"
    {
      ServicePaths();
      EndpointSegments();
      UnderBase(StripSlashes(paiUri), Join(["healthz"]), "/healthz");
      CreateUriUnder(paiUri, ["healthz"]);
      CreateUri([paiUri] + ["healthz"])
    }

    function Metrics(): (r: string)
      ensures r == StripSlashes(paiUri) + "/metrics"
    {
      ServicePaths();
      EndpointSegments();
      UnderBase(StripSlashes(paiUri), Join(["metrics"]), "/metrics");
      CreateUriUnder(paiUri, ["metrics"]);
      CreateUri([paiUri] + ["metrics"])
    }

    function Diagnostics(): (r: string)
      ensures r == StripSlashes(paiUri) + "/diagnostics"
    {
      ServicePaths();
      EndpointSegments();
      UnderBase(StripSlashes(paiUri), Join(["diagnostics"]), "/diagnostics");
      CreateUriUnder(paiUri, ["diagnostics"]);
      CreateUri([paiUri] + ["diagnostics"])
    }

    function ProcessText(): (r: string)
      ensures r == StripSlashes(paiUri) + "/v3/process/text"
    {
      TextPath();
      EndpointSegments();
      UnderBase(StripSlashes(paiUri), Join(["v3", "process", "text"]), "/v3/process/text");
      CreateUriUnder(paiUri, [ApiVersion, "process", "text"]);
      CreateUri([paiUri] + [ApiVersion, "process", "text"])
    }

    function ProcessFilesUri(): (r: string)
      ensures r == StripSlashes(paiUri) + "/v3/process/files/uri"
    {
      FileUriPath();
      EndpointSegments();
      UnderBase(StripSlashes(paiUri), Join(["v3", "process", "files", "uri"]), "/v3/process/files/uri");
      CreateUriUnder(paiUri, [ApiVersion, "process", "files", "uri"]);
      CreateUri([paiUri] + [ApiVersion, "process", "files", "uri"])
    }

    function ReidentifyText(): (r: string)
      ensures r == StripSlashes(paiUri) + "/v3/process/text/reidentify"
    {
      ReidentifyPath();
      EndpointSegments();
      UnderBase(StripSlashes(paiUri), Join(["v3", "process", "text", "reidentify"]), "/v3/process/text/reidentify");
      CreateUriUnder(paiUri, [ApiVersion, "process", "text", "reidentify"]);
      CreateUri([paiUri] + [ApiVersion, "process", "text", "reidentify"])
    }

    function ProcessFilesBase64(): (r: string)
      ensures r == StripSlashes(paiUri) + "/v3/process/files/base64"
    {
      FileBase64Path();
      EndpointSegments();
      UnderBase(StripSlashes(paiUri), Join(["v3", "process", "files", "base64"]), "/v3/process/files/base64");
      CreateUriUnder(paiUri, [ApiVersion, "process", "files", "base64"]);
      CreateUri([paiUri] + [ApiVersion, "process", "files", "base64"])
    }

    /** The empty final segment leaves a single trailing slash. */
    function Version(): (r: string)
      ensures r == StripSlashes(paiUri) + "/"
    {
      ServicePaths();
      EndpointSegments();
      UnderBase(StripSlashes(paiUri), Join([""]), "/");
      CreateUriUnder(paiUri, [""]);
      CreateUri([paiUri] + [""])
    }
  }

  /** The base assembled from a scheme cut at its first `://`, a host and
      an optional port: `scheme://host`, with `:port` when a port is given. */
  function Assembled(scheme: string, host: string, port: Option<string>): string {
    BeforeFirst(scheme, "://") + "://" + host + (if Given(port) then ":" + port.value else "")
  }

  /** `PAIURIs(url, scheme, host, port)`: a given url is taken verbatim;
      otherwise the scheme, cut at its first `://`, must be http or https
      and the base is `scheme://host`, with `:port` when a port is given. */
  function New(url: Option<string>, scheme: Option<string>, host: Option<string>, port: Option<string>)
    : (r: Result<PaiUris>)
    ensures Given(url) ==> r == Ok(PaiUris(url.value))
    ensures !Given(url) && !(Given(scheme) && Given(host)) ==> r == Err(MissingLocationError)
    ensures !Given(url) && Given(scheme) && Given(host) ==>
              (r.Ok? <==> BeforeFirst(scheme.value, "://") in ValidSchemes)
    ensures !Given(url) && r.Err? ==> r.error.ValueError?
  {
    if Given(url) then Ok(PaiUris(url.value))
    else if Given(scheme) && Given(host) then
      var s := BeforeFirst(scheme.value, "://");
      if s !in ValidSchemes then Err(SchemeError)
      else Ok(PaiUris(Assembled(scheme.value, host.value, port)))
    else Err(MissingLocationError)
  }

  /** A validated scheme is read back from the front of `scheme://tail`. */
  lemma SchemeReadBack(s: string, tail: string)
    requires s in ValidSchemes
    ensures BeforeFirst(s + "://" + tail, "://") == s
  {
    var base := s + "://" + tail;
    assert forall i :: 0 <= i < |s| ==> !OccursAt(base, "://", i) by {
      forall i | 0 <= i < |s|
        ensures !OccursAt(base, "://", i)
      {
        assert base[i] == s[i] != ':';
        if i + 3 <= |base| {
          assert base[i..i + 3][0] == base[i];
        }
      }
    }
    assert OccursAt(base, "://", |s|) by {
      assert base[|s|..|s| + 3] == "://";
    }
    var b := BeforeFirst(base, "://");
    assert b == base[..|s|];
  }

  /** Without a url, a valid scheme and a host give `scheme://host[:port]`. */
  lemma NewAssembled(scheme: string, host: string, port: Option<string>)
    requires scheme != "" && host != ""
    requires BeforeFirst(scheme, "://") in ValidSchemes
    ensures New(None, Some(scheme), Some(host), port) == Ok(PaiUris(Assembled(scheme, host, port)))
  {
  }

  /** A base assembled from parts reads back as those parts: its scheme is
      the validated scheme, and after `://` come the host and the port. */
  lemma SchemeRoundTrip(scheme: string, host: string, port: Option<string>)
    requires BeforeFirst(scheme, "://") in ValidSchemes
    ensures var s := BeforeFirst(scheme, "://");
            var base := Assembled(scheme, host, port);
            BeforeFirst(base, "://") == s
            && base[|s| + 3..] == host + (if Given(port) then ":" + port.value else "")
  {
    var s := BeforeFirst(scheme, "://");
    var tail := host + (if Given(port) then ":" + port.value else "");
    assert Assembled(scheme, host, port) == s + "://" + tail;
    SchemeReadBack(s, tail);
    assert (s + "://" + tail)[|s| + 3..] == tail;
  }
}

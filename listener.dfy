/** The REST listener (listener/listener.py): the handler behind
    /api/test_control that lets the UI change the shared test-control
    dictionary, the request plumbing every handler shares (body decoding by
    content type, the siren reply, the CORS preflight), and the static-file
    handler that serves the UI from any path. */
module Listener {
  import opened PyValue
  import opened Control

  const RespContentType: string := "application/vnd.siren+json; charset=UTF-8"

  /** The headers `initialize` sets on every reply. */
  const CorsHeaders: seq<(string, string)> := [
    ("Access-Control-Allow-Origin", "*"),
    ("Access-Control-Allow-Headers", "x-requested-with, Content-Type"),
    ("Access-Control-Allow-Methods", "POST, GET, OPTIONS")
  ]

  // ---------------------------------------------------------------------------
  // The update rule of POST /api/test_control.

  /** `if json_args['run']:` for the posted body. */
  predicate RunFlag(body: seq<(Value, Value)>) {
    match Get(body, VStr("run"))
    case Some(v) => Truthy(v)
    case None => false
  }

  /** One iteration of `for key, value in json_args.items()`. */
  function PostItem(c: ControlState, item: (Value, Value), body: seq<(Value, Value)>): ControlState {
    if item.0 == VStr("run") then c.(run := RunFlag(body))
    else if item.0.VStr? && item.0.s in c.entries then c.(entries := c.entries[item.0.s := item.1])
    else c
  }

  /** The control after the loop has run over `items`, in order. */
  function Posted(c: ControlState, items: seq<(Value, Value)>, body: seq<(Value, Value)>): ControlState
    decreases |items|
  {
    if items == [] then c
    else PostItem(Posted(c, items[..|items| - 1], body), items[|items| - 1], body)
  }

  /** The value of the last item with key `k`, if any. */
  function LastValue(items: seq<(Value, Value)>, k: Value): Option<Value>
    decreases |items|
  {
    if items == [] then None
    else if items[|items| - 1].0 == k then Some(items[|items| - 1].1)
    else LastValue(items[..|items| - 1], k)
  }

  /** An entry keeps its value unless the body posts one for it. */
  function Overwritten(current: Value, posted: Option<Value>): Value {
    match posted
    case Some(v) => v
    case None => current
  }

  /** `LastValue` finds the last item carrying the key, and only such an item. */
  lemma {:induction false} LastValueIndex(items: seq<(Value, Value)>, k: Value)
    ensures LastValue(items, k).Some? <==> exists i :: 0 <= i < |items| && items[i].0 == k
    ensures LastValue(items, k).Some? ==>
              exists i :: 0 <= i < |items| && items[i] == (k, LastValue(items, k).value) &&
                forall j :: i < j < |items| ==> items[j].0 != k
    decreases |items|
  {
    if items != [] {
      var n := |items| - 1;
      var init := items[..n];
      LastValueIndex(init, k);
      if items[n].0 == k {
        assert items[n] == (k, LastValue(items, k).value);
      } else {
        assert LastValue(items, k) == LastValue(init, k);
        if LastValue(init, k).Some? {
          var i :| 0 <= i < |init| && init[i] == (k, LastValue(init, k).value) &&
                   forall j :: i < j < |init| ==> init[j].0 != k;
          assert items[i] == init[i];
          forall j | i < j < |items| ensures items[j].0 != k {
            if j < n {
              assert items[j] == init[j];
            }
          }
        } else {
          forall i | 0 <= i < |items| ensures items[i].0 != k {
            if i < n {
              assert items[i] == init[i];
            }
          }
        }
      }
    }
  }

  /** Posting never adds or removes a control key. */
  lemma {:induction false} PostedKeys(c: ControlState, items: seq<(Value, Value)>, body: seq<(Value, Value)>)
    ensures Posted(c, items, body).entries.Keys == c.entries.Keys
    decreases |items|
  {
    if items != [] {
      PostedKeys(c, items[..|items| - 1], body);
    }
  }

  /** Every control entry ends up with the value the body posts last for it,
      and an entry the body does not mention keeps its value. */
  lemma {:induction false} PostedEntry(c: ControlState, items: seq<(Value, Value)>, body: seq<(Value, Value)>, k: string)
    requires "run" !in c.entries && k in c.entries
    ensures k in Posted(c, items, body).entries
    ensures Posted(c, items, body).entries[k] == Overwritten(c.entries[k], LastValue(items, VStr(k)))
    decreases |items|
  {
    PostedKeys(c, items, body);
    if items != [] {
      var init := items[..|items| - 1];
      PostedEntry(c, init, body, k);
      PostedKeys(c, init, body);
    }
  }

  /** The run flag follows the posted 'run' value when the body has one, and
      is left alone otherwise. */
  lemma {:induction false} PostedRun(c: ControlState, items: seq<(Value, Value)>, body: seq<(Value, Value)>)
    ensures Posted(c, items, body).run ==
              if LastValue(items, VStr("run")).Some? then RunFlag(body) else c.run
    decreases |items|
  {
    if items != [] {
      PostedRun(c, items[..|items| - 1], body);
    }
  }

  /** Posting the same body twice leaves the control as posting it once. */
  lemma {:induction false} PostedIdempotent(c: ControlState, body: seq<(Value, Value)>)
    requires "run" !in c.entries
    ensures Posted(Posted(c, body, body), body, body) == Posted(c, body, body)
  {
    var once := Posted(c, body, body);
    var twice := Posted(once, body, body);
    PostedKeys(c, body, body);
    PostedKeys(once, body, body);
    PostedRun(c, body, body);
    PostedRun(once, body, body);
    forall k | k in once.entries ensures twice.entries[k] == once.entries[k] {
      PostedEntry(c, body, body, k);
      PostedEntry(once, body, body, k);
    }
  }

  // ---------------------------------------------------------------------------
  // Decoding the request body.

  /** The body as `post` hands it to `handle_post`: JSON when the content type
      mentions 'json' (checked first), text for 'text/plain', otherwise None.
      `parse` stands for `json_decode`; a body it rejects raises. */
  function DecodeBody(contentType: string, body: string, parse: string -> Option<Value>): (r: Result<Value, PyError>)
    ensures Contains(contentType, "json") ==> (r.Ok? <==> parse(body).Some?)
    ensures Contains(contentType, "json") && r.Ok? ==> r.value == parse(body).value
    ensures !Contains(contentType, "json") ==> r.Ok?
    ensures !Contains(contentType, "json") && Contains(contentType, "text/plain") ==> r.value == VStr(body)
    ensures !Contains(contentType, "json") && !Contains(contentType, "text/plain") ==> r.value == VNone
  {
    if Contains(contentType, "json") then
      match parse(body)
      case Some(v) => Ok(v)
      case None => Err(ValueError("body is not JSON"))
    else if Contains(contentType, "text/plain") then Ok(VStr(body))
    else Ok(VNone)
  }

  /** What a POST to /api/test_control does to the control, or the exception
      that ends it: the Content-Type header is required, the body must decode,
      and only a dict has `.items()`. */
  function PostEffect(contentType: Option<string>, body: string, parse: string -> Option<Value>,
                      c: ControlState): Result<ControlState, PyError>
  {
    match contentType
    case None => Err(KeyError(VStr("Content-Type")))
    case Some(ct) =>
      var data :- DecodeBody(ct, body, parse);
      var items :- Items(data);
      Ok(Posted(c, items, items))
  }

  /** A post never gives the control a key it did not have. */
  lemma {:induction false} PostKeepsKeySet(contentType: Option<string>, body: string, parse: string -> Option<Value>, c: ControlState)
    requires PostEffect(contentType, body, parse, c).Ok?
    ensures PostEffect(contentType, body, parse, c).value.entries.Keys == c.entries.Keys
  {
    var data := DecodeBody(contentType.value, body, parse).value;
    PostedKeys(c, data.entries, data.entries);
  }

  /** A text/plain body is a str, which has no `.items()`: such a post fails
      and changes nothing. */
  lemma {:induction false} PlainTextPostFails(ct: string, body: string, parse: string -> Option<Value>, c: ControlState)
    requires !Contains(ct, "json") && Contains(ct, "text/plain")
    ensures PostEffect(Some(ct), body, parse, c) == Err(AttributeError("items"))
  {
  }

  // ---------------------------------------------------------------------------
  // Request headers, as Tornado's `HTTPHeaders` looks them up.

  function LowerAscii(c: char): char {
    if 'A' <= c <= 'Z' then (c as int + 32) as char else c
  }

  function LowerName(name: string): string {
    seq(|name|, i requires 0 <= i < |name| => LowerAscii(name[i]))
  }

  /** Header names are compared case-insensitively: Tornado normalises every
      name to the same capitalisation before storing or looking it up. */
  predicate SameHeaderName(a: string, b: string) {
    LowerName(a) == LowerName(b)
  }

  /** The values of the headers with the given name, in the order received. */
  function HeaderValues(headers: seq<(string, string)>, name: string): (r: seq<string>)
    ensures |r| <= |headers|
    decreases |headers|
  {
    if headers == [] then []
    else
      var last := headers[|headers| - 1];
      HeaderValues(headers[..|headers| - 1], name) + (if SameHeaderName(last.0, name) then [last.1] else [])
  }

  /** `self.request.headers[name]`: `KeyError` (None here) when no header has
      the name, otherwise all its values joined by ','. */
  function HeaderLookup(headers: seq<(string, string)>, name: string): (r: Option<string>)
  {
    var values := HeaderValues(headers, name);
    if values == [] then None else Some(Join(",", values))
  }

  /** A header is found under any capitalisation of its name; without one,
      the lookup fails. */
  lemma {:induction false} HeaderLookupFinds(headers: seq<(string, string)>, name: string)
    ensures HeaderLookup(headers, name).None? <==>
      forall i :: 0 <= i < |headers| ==> !SameHeaderName(headers[i].0, name)
    decreases |headers|
  {
    if headers != [] {
      var n := |headers| - 1;
      var init := headers[..n];
      HeaderLookupFinds(init, name);
      assert forall i :: 0 <= i < n ==> init[i] == headers[i];
      assert HeaderValues(headers, name) ==
        HeaderValues(init, name) + (if SameHeaderName(headers[n].0, name) then [headers[n].1] else []);
    }
  }

  /** A request with one Content-Type header, whatever its capitalisation
      ('content-type', 'CONTENT-TYPE', ...), gives its value. */
  lemma {:induction false} SingleHeaderFound(headers: seq<(string, string)>, n: string, v: string, name: string)
    requires SameHeaderName(n, name)
    requires forall i :: 0 <= i < |headers| ==> !SameHeaderName(headers[i].0, name)
    ensures HeaderLookup(headers + [(n, v)], name) == Some(v)
  {
    HeaderLookupFinds(headers, name);
    assert (headers + [(n, v)])[..|headers|] == headers;
    assert HeaderValues(headers + [(n, v)], name) == [v];
  }

  // ---------------------------------------------------------------------------
  // The request handler.

  /** A `TestRunnerHandler` serving one request: the shared control, and the
      reply it builds. */
  class TestRunnerHandler {
    const control: TestControl
    var status: int
    var headers: seq<(string, string)>
    /** The chunks passed to `write`, in order. */
    var written: seq<Value>
    var finished: bool

    /** `initialize`: the CORS headers are set before anything else. */
    constructor (control: TestControl)
      ensures this.control == control
      ensures status == 200 && headers == CorsHeaders && written == [] && !finished
    {
      this.control := control;
      status := 200;
      headers := CorsHeaders;
      written := [];
      finished := false;
    }

    /** `siren_response(resp)`: writes the response only when there is one,
        and sets the siren content type in every case. */
    method SirenResponse(resp: Option<Value>)
      modifies this
      ensures written == old(written) + (if resp.Some? then [resp.value] else [])
      ensures headers == Put(old(headers), "Content-Type", RespContentType)
      ensures Get(headers, "Content-Type") == Some(RespContentType)
      ensures forall h :: h != "Content-Type" ==> Get(headers, h) == Get(old(headers), h)
      ensures status == old(status) && finished == old(finished)
    {
      if resp.Some? {
        written := written + [resp.value];
      }
      headers := Put(headers, "Content-Type", RespContentType);
      forall h ensures Get(headers, h) == if h == "Content-Type" then Some(RespContentType) else Get(old(headers), h) {
        PutGet(old(headers), "Content-Type", RespContentType, h);
      }
    }

    /** `options()`: a preflight request is answered 204 with no body. */
    method Options()
      modifies this
      ensures status == 204 && finished
      ensures headers == old(headers) && written == old(written)
    {
      status := 204;
      finished := true;
    }

    /** `get()` on /api/test_control: `handle_get` answers "Stay tuned". */
    method HandleGet()
      modifies this
      ensures written == old(written) + [VStr("Stay tuned")]
      ensures headers == Put(old(headers), "Content-Type", RespContentType)
      ensures status == old(status) && finished == old(finished)
    {
      SirenResponse(Some(VStr("Stay tuned")));
    }

    /** `handle_post(json_args)`: a posted 'run' sets or clears the run event;
        any other posted key replaces the control entry only when the control
        already has it. Only a dict can be posted. */
    method HandlePost(data: Value) returns (r: Result<(), PyError>)
      requires control.Valid()
      modifies control
      ensures control.Valid()
      ensures r.Ok? <==> data.VDict?
      ensures !data.VDict? ==> r == Err(AttributeError("items")) && control.State() == old(control.State())
      ensures data.VDict? ==> control.State() == Posted(old(control.State()), data.entries, data.entries)
    {
      if !data.VDict? {
        return Err(AttributeError("items"));
      }
      var items := data.entries;
      for i := 0 to |items|
        invariant control.State() == Posted(old(control.State()), items[..i], items)
        invariant control.Valid()
      {
        assert items[..i + 1][..i] == items[..i];
        var (key, value) := items[i];
        if key == VStr("run") {
          control.run := RunFlag(items);
        } else if key.VStr? && key.s in control.entries {
          control.entries := control.entries[key.s := value];
        }
      }
      assert items[..|items|] == items;
      r := Ok(());
    }

    /** `post()`: reads the Content-Type header, decodes the body, hands it to
        `handle_post` and answers with an empty siren reply. An exception
        leaves the reply untouched. */
    method Post(requestHeaders: seq<(string, string)>, body: string, parse: string -> Option<Value>)
      returns (r: Result<(), PyError>)
      requires control.Valid()
      modifies this, control
      ensures control.Valid()
      ensures var eff := PostEffect(HeaderLookup(requestHeaders, "Content-Type"), body, parse, old(control.State()));
              (r.Ok? <==> eff.Ok?) &&
              (r.Err? ==> r.error == eff.error && control.State() == old(control.State()) &&
                          headers == old(headers)) &&
              (r.Ok? ==> control.State() == eff.value &&
                         headers == Put(old(headers), "Content-Type", RespContentType))
      ensures written == old(written) && status == old(status) && finished == old(finished)
    {
      var contentType := HeaderLookup(requestHeaders, "Content-Type");
      if contentType.None? {
        return Err(KeyError(VStr("Content-Type")));
      }
      var decoded := DecodeBody(contentType.value, body, parse);
      if decoded.Err? {
        return Err(decoded.error);
      }
      var handled := HandlePost(decoded.value);
      if handled.Err? {
        return Err(handled.error);
      }
      SirenResponse(None);
      r := Ok(());
    }
  }

  // ---------------------------------------------------------------------------
  // Serving the UI: `UiEntryHandler.validate_absolute_path`.

  /** The file system as the handler queries it. */
  datatype FileSystem = FileSystem(dirs: set<string>, files: set<string>)

  /** What the handler does with a request for a static path. */
  datatype PathOutcome =
    | Serve(path: string)
    | Redirect(location: string, permanent: bool)
    | Forbidden(code: int)

  /** The root with the separator put back, as `validate_absolute_path` makes it. */
  function NormalisedRoot(absRoot: string): (r: string)
    ensures EndsWith(r, "/") && StartsWith(r, absRoot) && |r| <= |absRoot| + 1
    ensures EndsWith(absRoot, "/") ==> r == absRoot
  {
    if EndsWith(absRoot, "/") then absRoot else absRoot + "/"
  }

  /** `os.path.join(a, b)` for two components on POSIX. */
  function PathJoin(a: string, b: string): (r: string)
    ensures StartsWith(b, "/") ==> r == b
    ensures !StartsWith(b, "/") ==> EndsWith(r, b) && StartsWith(r, a)
  {
    if StartsWith(b, "/") then b
    else if a == "" || EndsWith(a, "/") then a + b
    else a + "/" + b
  }

  /** `validate_absolute_path(root, absolute_path)`. `absRoot` is
      `os.path.abspath(root)`; `requestPath` is the request's URL path. A
      path outside the root is refused with 403; a directory asked for
      without a trailing '/' is redirected; a missing file falls back to the
      UI's default file, which raises when there is no default file name. */
  function ValidateAbsolutePath(absRoot: string, absolutePath: string, requestPath: string,
                                defaultFilename: Option<string>, fs: FileSystem): (r: Result<PathOutcome, PyError>)
    ensures var root := NormalisedRoot(absRoot);
            (r == Ok(Forbidden(403)) <==> !StartsWith(absolutePath + "/", root))
    ensures var contained := StartsWith(absolutePath + "/", NormalisedRoot(absRoot));
            ((r.Ok? && r.value.Redirect?) <==>
               (contained && absolutePath in fs.dirs && defaultFilename.Some? && !EndsWith(requestPath, "/")))
    ensures r.Ok? && r.value.Redirect? ==> r.value == Redirect(requestPath + "/", true)
    ensures r.Ok? && r.value.Serve? ==>
              (r.value.path in fs.files ||
               (defaultFilename.Some? && r.value.path == PathJoin(NormalisedRoot(absRoot), defaultFilename.value)))
    ensures r.Err? ==> defaultFilename.None?
    ensures (StartsWith(absolutePath + "/", NormalisedRoot(absRoot)) && absolutePath !in fs.dirs &&
             absolutePath in fs.files) ==> r == Ok(Serve(absolutePath))
    ensures r.Ok? && r.value.Forbidden? ==> r.value.code == 403
    // A contained path that is neither a directory nor a file: the UI's default file under the root.
    ensures (StartsWith(absolutePath + "/", NormalisedRoot(absRoot)) && absolutePath !in fs.dirs &&
             absolutePath !in fs.files && defaultFilename.Some?) ==>
              r == Ok(Serve(PathJoin(NormalisedRoot(absRoot), defaultFilename.value)))
    // A contained directory asked for with a trailing '/': its default file, or the root's when it has none.
    ensures (StartsWith(absolutePath + "/", NormalisedRoot(absRoot)) && absolutePath in fs.dirs &&
             defaultFilename.Some? && EndsWith(requestPath, "/")) ==>
              r == Ok(Serve(if PathJoin(absolutePath, defaultFilename.value) in fs.files
                            then PathJoin(absolutePath, defaultFilename.value)
                            else PathJoin(NormalisedRoot(absRoot), defaultFilename.value)))
    // Without a default file name, a contained path is served when it is a file and raises otherwise.
    ensures (StartsWith(absolutePath + "/", NormalisedRoot(absRoot)) && defaultFilename.None?) ==>
              r == (if absolutePath in fs.files then Ok(Serve(absolutePath))
                    else Err(TypeError("join() argument must be str")))
  {
    var root := NormalisedRoot(absRoot);
    if !StartsWith(absolutePath + "/", root) then Ok(Forbidden(403))
    else if absolutePath in fs.dirs && defaultFilename.Some? && !EndsWith(requestPath, "/") then
      Ok(Redirect(requestPath + "/", true))
    else
      var path := if absolutePath in fs.dirs && defaultFilename.Some?
                  then PathJoin(absolutePath, defaultFilename.value) else absolutePath;
      if !(path in fs.dirs || path in fs.files) || path !in fs.files then
        match defaultFilename
        case None => Err(TypeError("join() argument must be str"))
        case Some(f) => Ok(Serve(PathJoin(root, f)))
      else Ok(Serve(path))
  }

  /** What `os.path.abspath` returns: a trailing separator only on "/". */
  predicate AbsPathForm(p: string) {
    p == "/" || !EndsWith(p, "/")
  }

  /** `p` is the root directory itself or lies below it. */
  predicate UnderRoot(p: string, root: string) {
    StartsWith(p, root) || p + "/" == root
  }

  lemma {:induction false} PrefixKept(s: string, root: string, t: string)
    requires StartsWith(s, root)
    ensures StartsWith(s + t, root)
  {
    assert (s + t)[..|root|] == s[..|root|];
  }

  /** A path that passes the 403 test is the root directory or lies below it. */
  lemma {:induction false} ContainedUnderRoot(absolutePath: string, root: string)
    requires StartsWith(absolutePath + "/", root)
    ensures UnderRoot(absolutePath, root)
  {
    var ext := absolutePath + "/";
    if |root| <= |absolutePath| {
      assert absolutePath[..|root|] == ext[..|root|];
    } else {
      assert root == ext;
    }
  }

  /** The default file of a contained directory stays under the root. */
  lemma {:induction false} JoinedUnderRoot(absRoot: string, absolutePath: string, f: string)
    requires AbsPathForm(absRoot) && StartsWith(absolutePath, "/") && !StartsWith(f, "/")
    requires StartsWith(absolutePath + "/", NormalisedRoot(absRoot))
    ensures UnderRoot(PathJoin(absolutePath, f), NormalisedRoot(absRoot))
  {
    var root := NormalisedRoot(absRoot);
    var ext := absolutePath + "/";
    if EndsWith(absolutePath, "/") {
      assert PathJoin(absolutePath, f) == absolutePath + f;
      RootNotDoubled(absRoot, absolutePath);
      assert StartsWith(absolutePath, root) by {
        assert absolutePath[..|root|] == ext[..|root|];
      }
      PrefixKept(absolutePath, root, f);
    } else {
      assert PathJoin(absolutePath, f) == ext + f;
      PrefixKept(ext, root, f);
    }
  }

  /** A root of length |absolutePath| + 1 would end in "//", which `abspath`
      never gives: the root is no longer than a directory path below it. */
  lemma {:induction false} RootNotDoubled(absRoot: string, absolutePath: string)
    requires AbsPathForm(absRoot) && StartsWith(absolutePath, "/") && EndsWith(absolutePath, "/")
    requires StartsWith(absolutePath + "/", NormalisedRoot(absRoot))
    ensures |NormalisedRoot(absRoot)| <= |absolutePath|
  {
    var root := NormalisedRoot(absRoot);
    var ext := absolutePath + "/";
    var n := |absolutePath|;
    assert absolutePath[n - 1] == '/' by { assert absolutePath[n - 1..] == "/"; }
    if EndsWith(absRoot, "/") {
      assert |root| == 1;
    } else if absRoot != [] {
      var m := |absRoot|;
      assert absRoot[m - 1] != '/' by { assert absRoot[m - 1..] != "/"; }
      assert root == absRoot + "/";
      assert ext[m - 1] == root[m - 1] == absRoot[m - 1];
      assert ext[n - 1] == '/';
    }
  }

  /** Every path the UI handler serves lies under the static root, provided
      the configured default file name is relative. */
  lemma {:induction false} ServedUnderRoot(absRoot: string, absolutePath: string, requestPath: string,
                        defaultFilename: Option<string>, fs: FileSystem)
    requires AbsPathForm(absRoot) && StartsWith(absolutePath, "/")
    requires defaultFilename.Some? ==> !StartsWith(defaultFilename.value, "/")
    requires ValidateAbsolutePath(absRoot, absolutePath, requestPath, defaultFilename, fs).Ok?
    requires ValidateAbsolutePath(absRoot, absolutePath, requestPath, defaultFilename, fs).value.Serve?
    ensures UnderRoot(ValidateAbsolutePath(absRoot, absolutePath, requestPath, defaultFilename, fs).value.path,
                      NormalisedRoot(absRoot))
  {
    var root := NormalisedRoot(absRoot);
    assert StartsWith(absolutePath + "/", root);
    ContainedUnderRoot(absolutePath, root);
    if absolutePath in fs.dirs && defaultFilename.Some? {
      JoinedUnderRoot(absRoot, absolutePath, defaultFilename.value);
    }
    if defaultFilename.Some? {
      PrefixKept(root, root, defaultFilename.value);
      assert PathJoin(root, defaultFilename.value) == root + defaultFilename.value;
    }
  }
}

/** Browser views (browser_view.go): URL normalisation on creation, bounds and create commands. */
module BrowserViews {
  import opened Wrappers
  import opened Events
  import opened Objects

  const BrowserViewCmdCreate: string := "browser.view.cmd.create"
  const BrowserViewCmdSetBounds: string := "browser.view.cmd.set.bounds"
  const BrowserViewEventSetBounds: string := "browser.view.event.set.bounds"
  const BrowserViewEventDidFinishLoad: string := "browser.view.event.did.finish.load"

  /** The parts of a parsed URL the model keeps. */
  datatype URL = URL(scheme: string, opaqueData: string, host: string, path: string, rawQuery: string, fragment: string)

  /** `&url.URL{Path: path, Scheme: "file"}`: every other part empty. */
  function FileURL(path: string): URL
  {
    URL("file", "", "", path, "", "")
  }

  /**
   * The library calls the constructor depends on, which read the environment:
   * url.Parse, filepath.Abs (a value and an error, as Go returns them) and
   * filepath.ToSlash.
   */
  datatype Library = Library(
    parse: string -> Result<URL>,
    abs: string -> (string, Option<Error>),
    toSlash: string -> string)

  /**
   * The URL a view ends up with: the parsed URL when it has a scheme, the
   * slash-converted absolute path as a file URL when it has none, or the
   * error of whichever library call failed.
   */
  function ResolvedURL(raw: string, lib: Library): (r: Result<URL>)
    ensures r.Ok? ==> r.value.scheme != ""
    ensures lib.parse(raw).Err? ==> r == Err(Wrapped("std parsing of url " + raw + " failed", lib.parse(raw).error))
    ensures lib.parse(raw).Ok? && lib.parse(raw).value.scheme != "" ==> r == lib.parse(raw)
    ensures lib.parse(raw).Ok? && lib.parse(raw).value.scheme == "" ==>
      if lib.abs(raw).1.Some?
      then r == Err(Wrapped("getting absolute path of " + lib.abs(raw).0 + " failed", lib.abs(raw).1.value))
      else r == Ok(FileURL(lib.toSlash(lib.abs(raw).0)))
  {
    match lib.parse(raw)
    case Err(cause) => Err(Wrapped("std parsing of url " + raw + " failed", cause))
    case Ok(u) =>
      if u.scheme != "" then Ok(u)
      else
        var (path, absErr) := lib.abs(raw);
        match absErr
        case Some(cause) => Err(Wrapped("getting absolute path of " + path + " failed", cause))
        case None => Ok(FileURL(lib.toSlash(path)))
  }

  /**
   * Resolving is stable: when the rendered form of a resolved URL parses back
   * to that URL, resolving the rendered form again gives the same URL. So the
   * URL Create sends resolves to the URL the view holds.
   */
  lemma ResolvedURLIsFixpoint(raw: string, lib: Library, render: URL -> string)
    requires ResolvedURL(raw, lib).Ok?
    requires lib.parse(render(ResolvedURL(raw, lib).value)) == ResolvedURL(raw, lib)
    ensures ResolvedURL(render(ResolvedURL(raw, lib).value), lib) == ResolvedURL(raw, lib)
  {
  }

  class BrowserView {
    const obj: Obj
    const callbackIdentifier: Identifier
    const o: Option<WindowOptions>
    var url: URL

    /** The allocation step of newBrowserView: the url is set afterwards. */
    constructor (base: Obj, callbacks: Identifier, wo: Option<WindowOptions>)
      ensures obj == base && callbackIdentifier == callbacks && o == wo
    {
      obj := base;
      callbackIdentifier := callbacks;
      o := wo;
      url := FileURL("");
    }

    /** SetBounds: does nothing once cancelled; otherwise sends the bounds, ignoring the outcome. */
    method SetBounds(bounds: Option<RectangleOptions>, answer: Answer)
      modifies obj
      ensures obj.State() == Command(old(obj.State()),
        SyncCall(Envelope(BrowserViewCmdSetBounds, obj.id).(bounds := bounds), BrowserViewEventSetBounds))
    {
      var err := obj.Err();
      if err.Some? {
        return;
      }
      var _ := obj.SynchronousEvent(
        Envelope(BrowserViewCmdSetBounds, obj.id).(bounds := bounds), BrowserViewEventSetBounds, answer);
    }

    /**
     * Create: fails fast once cancelled; otherwise sends the rendered URL and
     * the window options and awaits "did finish load". `render` is URL.String.
     */
    method Create(render: URL -> string, answer: Answer) returns (err: Option<Error>)
      modifies obj
      ensures obj.State() == Command(old(obj.State()),
        SyncCall(Envelope(BrowserViewCmdCreate, obj.id).(url := render(url), windowOptions := o),
                 BrowserViewEventDidFinishLoad))
      ensures err == if old(obj.cancelled) then Some(Canceled) else answer.err
    {
      err := obj.Err();
      if err.Some? {
        return;
      }
      var r := obj.SynchronousEvent(
        Envelope(BrowserViewCmdCreate, obj.id).(url := render(url), windowOptions := o),
        BrowserViewEventDidFinishLoad, answer);
      err := r.err;
    }
  }

  /**
   * newBrowserView: allocates an object id and a fresh callback identifier,
   * then parses `url`; a URL without a scheme is replaced by a file URL of its
   * slash-converted absolute path. A failing library call yields no view and
   * the error, though the object id has already been drawn.
   */
  method NewBrowserView(url: string, wo: Option<WindowOptions>, i: Identifier, lib: Library)
    returns (b: BrowserView?, err: Option<Error>)
    requires i.Valid()
    modifies i
    ensures i.Valid() && |i.issued - old(i.issued)| == 1 && old(i.issued) <= i.issued
    ensures (b == null) <==> ResolvedURL(url, lib).Err?
    ensures b == null ==> err == Some(ResolvedURL(url, lib).error)
    ensures b != null ==> err == None && b.url == ResolvedURL(url, lib).value
    ensures b != null ==> fresh(b) && fresh(b.obj) && fresh(b.callbackIdentifier)
    ensures b != null ==> b.obj.id in i.issued - old(i.issued) && b.obj.id != ""
    ensures b != null ==> b.obj.State() == Initial && b.o == wo
    ensures b != null ==> b.callbackIdentifier.Valid() && b.callbackIdentifier.issued == {}
  {
    var callbacks := new Identifier();
    var id := i.New();
    assert i.issued - old(i.issued) == {id};
    var base := new Obj(id);
    b := new BrowserView(base, callbacks, wo);

    // Basic parse
    var parsed := lib.parse(url);
    if parsed.Err? {
      return null, Some(Wrapped("std parsing of url " + url + " failed", parsed.error));
    }
    b.url := parsed.value;

    // File
    if b.url.scheme == "" {
      // the error message names Abs's first result, not the original url
      var path, absErr := lib.abs(url).0, lib.abs(url).1;
      if absErr.Some? {
        return null, Some(Wrapped("getting absolute path of " + path + " failed", absErr.value));
      }
      b.url := FileURL(lib.toSlash(path));
    }
    err := None;
  }
}

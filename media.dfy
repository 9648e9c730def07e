/**
 * The template tags of mediasync/templatetags/media.py: stylesheet and
 * script tags for a file or a bundle of files, the deprecated IE
 * conditional-comment wrappers, and the conditional block node. Every
 * tag reads the same configuration snapshot and is a pure function of it.
 */
module Media {
  import opened Wrappers
  import opened Strings

  /**
   * The module flags read once from the host settings (`JOINED`,
   * `SERVE_REMOTE`, `DOCTYPE`), the base URL `MEDIA_URL`, and the raw
   * `MEDIASYNC_CSS_PATH` / `MEDIASYNC_JS_PATH` settings the tags read on
   * each call ("" when unset).
   */
  datatype Config = Config(
    joined: map<string, seq<string>>,
    serveRemote: bool,
    doctype: string,
    mediaUrl: string,
    cssPath: string,
    jsPath: string)

  /**
   * The host settings the module reads; `None` is an unset setting. media.py
   * reads `django.conf.settings` on its own, with `getattr` defaults, so this
   * is the same input as `Conf.HostSettings`, seen as media.py sees it.
   */
  datatype HostSettings = HostSettings(
    mediasyncJoined: Option<map<string, seq<string>>>,
    mediasyncServeRemote: Option<bool>,
    mediasyncDoctype: Option<string>,
    mediasyncCssPath: Option<string>,
    mediasyncJsPath: Option<string>,
    debug: bool,
    mediaUrl: string)

  function OrElse<T>(o: Option<T>, default: T): T
  {
    if o.Some? then o.value else default
  }

  /**
   * The configuration as the module reads it: no bundles, remote serving
   * exactly when not in debug mode, the "xhtml" doctype, and empty paths,
   * unless the host sets them.
   */
  function ReadConfig(h: HostSettings): Config
  {
    Config(
      OrElse(h.mediasyncJoined, map[]),
      OrElse(h.mediasyncServeRemote, !h.debug),
      OrElse(h.mediasyncDoctype, "xhtml"),
      h.mediaUrl,
      OrElse(h.mediasyncCssPath, ""),
      OrElse(h.mediasyncJsPath, ""))
  }

  const DefaultMedia := "screen, projection"

  /** `LINK_ENDER`: a self-closing end for the "xhtml" doctype only. */
  function LinkEnder(doctype: string): string
  {
    if doctype == "xhtml" then " />" else ">"
  }

  /*
   * Each `%`-format of the module is written as its literal pieces, which
   * `%s` separates: `Template(pieces)` is the format text itself.
   */
  function Template(pieces: seq<string>): string
  {
    JoinWith("%s", pieces)
  }

  /** `"%s/%s"` */
  const PathPieces := ["", "/", ""]
  /** `<link rel="stylesheet" href="%s/%s" type="text/css" media="%s"%s` */
  const LinkPieces := ["<link rel=\"stylesheet\" href=\"", "/", "\" type=\"text/css\" media=\"", "\"", ""]
  /** `<script src="%s/%s"></script>` */
  const Html5ScriptPieces := ["<script src=\"", "/", "\"></script>"]
  /** `<script type="text/javascript" charset="utf-8" src="%s%s/%s"></script>` */
  const ScriptPieces := ["<script type=\"text/javascript\" " + "charset=\"utf-8\" src=\"", "", "/", "\"></script>"]

  /** `IE` conditional comment formats, and the newline padding of a block. */
  const IePieces := ["<!--[if IE]>", "<![endif]-->"]
  const Ie6Pieces := ["<!--[if IE 6]>", "<![endif]-->"]
  const Ie7Pieces := ["<!--[if IE 7]>", "<![endif]-->"]
  const NewlinePieces := ["\n", "\n"]

  lemma PathFill(a: string, b: string)
    ensures Fill(PathPieces, [a, b]) == a + "/" + b
  {
    FillTwo(PathPieces, [a, b]);
    assert PathPieces[0] == "" && PathPieces[2] == "";
  }

  lemma PathFormatFills(a: string, b: string)
    ensures Format(Template(PathPieces), [a, b]) == Ok(a + "/" + b)
  {
    TemplateFormats(PathPieces, [a, b]);
    PathFill(a, b);
  }

  lemma LinkFill(a: string, b: string, c: string, d: string)
    ensures Fill(LinkPieces, [a, b, c, d]) ==
      "<link rel=\"stylesheet\" href=\"" + a + "/" + b + "\" type=\"text/css\" media=\"" + c + "\"" + d
  {
    FillFour(LinkPieces, [a, b, c, d]);
    assert LinkPieces[4] == "";
  }

  lemma LinkFormatFills(a: string, b: string, c: string, d: string)
    ensures Format(Template(LinkPieces), [a, b, c, d]) ==
      Ok("<link rel=\"stylesheet\" href=\"" + a + "/" + b + "\" type=\"text/css\" media=\"" + c + "\"" + d)
  {
    TemplateFormats(LinkPieces, [a, b, c, d]);
    LinkFill(a, b, c, d);
  }

  lemma Html5ScriptFill(a: string, b: string)
    ensures Fill(Html5ScriptPieces, [a, b]) == "<script src=\"" + a + "/" + b + "\"></script>"
  {
    FillTwo(Html5ScriptPieces, [a, b]);
  }

  lemma Html5ScriptFormatFills(a: string, b: string)
    ensures Format(Template(Html5ScriptPieces), [a, b]) == Ok("<script src=\"" + a + "/" + b + "\"></script>")
  {
    TemplateFormats(Html5ScriptPieces, [a, b]);
    Html5ScriptFill(a, b);
  }

  /** The non-html5 script format has three `%s`, so two arguments are too few. */
  lemma ScriptFormatFails(a: string, b: string)
    ensures Format(Template(ScriptPieces), [a, b]) == Err(NotEnoughArguments)
  {
    FormatTemplate(ScriptPieces, [a, b]);
  }

  /** A format `p%sq` with `%`-free `p` and `q` puts its one argument between them. */
  lemma OneSlotFormatFills(pieces: seq<string>, x: string)
    requires |pieces| == 2 && '%' !in pieces[0] && '%' !in pieces[1]
    ensures Format(Template(pieces), [x]) == Ok(pieces[0] + x + pieces[1])
  {
    TemplateFormats(pieces, [x]);
    FillOne(pieces, [x]);
  }

  lemma IeFormatFills(x: string)
    ensures Format(Template(IePieces), [x]) == Ok("<!--[if IE]>" + x + "<![endif]-->")
  {
    OneSlotFormatFills(IePieces, x);
  }

  lemma Ie6FormatFills(x: string)
    ensures Format(Template(Ie6Pieces), [x]) == Ok("<!--[if IE 6]>" + x + "<![endif]-->")
  {
    OneSlotFormatFills(Ie6Pieces, x);
  }

  lemma Ie7FormatFills(x: string)
    ensures Format(Template(Ie7Pieces), [x]) == Ok("<!--[if IE 7]>" + x + "<![endif]-->")
  {
    OneSlotFormatFills(Ie7Pieces, x);
  }

  /** The prefix `url` with the sub-path `path` appended when it is non-empty. */
  function PathUrl(url: string, path: string): (r: string)
    ensures path == "" ==> r == url
    ensures path != "" ==> r == url + "/" + path
  {
    if path != "" then
      PathFormatFills(url, path);
      Format(Template(PathPieces), [url, path]).value
    else
      url
  }

  /**
   * `linktag`: one stylesheet `<link>` whose `href` is `url`, then `path`
   * when it is non-empty, then `filename`, with `media` inserted verbatim.
   */
  function LinkTag(url: string, path: string, filename: string, media: string, doctype: string): (r: string)
    ensures r == "<link rel=\"stylesheet\" href=\"" + PathUrl(url, path) + "/" + filename
                 + "\" type=\"text/css\" media=\"" + media + "\"" + LinkEnder(doctype)
  {
    var u := PathUrl(url, path);
    LinkFormatFills(u, filename, media, LinkEnder(doctype));
    Format(Template(LinkPieces), [u, filename, media, LinkEnder(doctype)]).value
  }

  /** The tags for `files`, one per file, in order (the generator fed to `join`). */
  function LinkTags(url: string, path: string, files: seq<string>, media: string, doctype: string): (tags: seq<string>)
    ensures |tags| == |files|
    ensures forall i :: 0 <= i < |files| ==> tags[i] == LinkTag(url, path, files[i], media, doctype)
  {
    seq(|files|, i requires 0 <= i < |files| => LinkTag(url, path, files[i], media, doctype))
  }

  /** `JOINED.get(filename, (filename,))`: a bundle's files, or the name itself. */
  function Expand(joined: map<string, seq<string>>, filename: string): seq<string>
  {
    if filename in joined then joined[filename] else [filename]
  }

  /** A name that the remote server holds as one joined file. */
  predicate RemoteBundle(cfg: Config, filename: string)
  {
    cfg.serveRemote && filename in cfg.joined
  }

  /**
   * `css`: one tag for a bundle served remotely, otherwise one tag per file
   * of the expansion, joined by single spaces. The configured path is
   * stripped of leading and trailing `/` first.
   */
  function Css(cfg: Config, filename: string, media: string): string
  {
    var path := Strip('/', cfg.cssPath);
    if RemoteBundle(cfg, filename) then
      LinkTag(cfg.mediaUrl, path, filename, media, cfg.doctype)
    else
      JoinWith(" ", LinkTags(cfg.mediaUrl, path, Expand(cfg.joined, filename), media, cfg.doctype))
  }

  /** `css_print`: `css` with the "print" media. */
  function CssPrint(cfg: Config, filename: string): (r: string)
    ensures r == Css(cfg, filename, "print")
  {
    Css(cfg, filename, "print")
  }

  /** `css_ie`: the default-media `css` inside an `IE` conditional comment. */
  function CssIe(cfg: Config, filename: string): (r: string)
    ensures r == "<!--[if IE]>" + Css(cfg, filename, DefaultMedia) + "<![endif]-->"
  {
    var tags := Css(cfg, filename, DefaultMedia);
    IeFormatFills(tags);
    Format(Template(IePieces), [tags]).value
  }

  /** `css_ie6`: the default-media `css` inside an `IE 6` conditional comment. */
  function CssIe6(cfg: Config, filename: string): (r: string)
    ensures r == "<!--[if IE 6]>" + Css(cfg, filename, DefaultMedia) + "<![endif]-->"
  {
    var tags := Css(cfg, filename, DefaultMedia);
    Ie6FormatFills(tags);
    Format(Template(Ie6Pieces), [tags]).value
  }

  /** `css_ie7`: the default-media `css` inside an `IE 7` conditional comment. */
  function CssIe7(cfg: Config, filename: string): (r: string)
    ensures r == "<!--[if IE 7]>" + Css(cfg, filename, DefaultMedia) + "<![endif]-->"
  {
    var tags := Css(cfg, filename, DefaultMedia);
    Ie7FormatFills(tags);
    Format(Template(Ie7Pieces), [tags]).value
  }

  /**
   * `scripttag`: with the "html5" doctype, a `<script>` whose `src` is built
   * like a link's `href`. Any other doctype selects a format with three
   * `%s` that is given two arguments, so formatting fails.
   */
  function ScriptTag(url: string, path: string, filename: string, doctype: string): (r: Result<string, FormatError>)
    ensures doctype == "html5" ==> r == Ok("<script src=\"" + PathUrl(url, path) + "/" + filename + "\"></script>")
    ensures doctype != "html5" ==> r == Err(NotEnoughArguments)
  {
    var markup := if doctype == "html5" then Html5ScriptPieces else ScriptPieces;
    Html5ScriptFormatFills(PathUrl(url, path), filename);
    ScriptFormatFails(PathUrl(url, path), filename);
    Format(Template(markup), [PathUrl(url, path), filename])
  }

  /**
   * The script tags for `files`, in order, as `join` consumes the generator:
   * the first tag that fails to format stops it with that error.
   */
  function ScriptTags(url: string, path: string, files: seq<string>, doctype: string): (r: Result<seq<string>, FormatError>)
    ensures r.Ok? ==> |r.value| == |files|
    ensures r.Ok? ==> forall i :: 0 <= i < |files| ==> ScriptTag(url, path, files[i], doctype) == Ok(r.value[i])
    ensures r.Err? <==> exists i :: 0 <= i < |files| && ScriptTag(url, path, files[i], doctype).Err?
    ensures r.Err? ==> r.error == NotEnoughArguments
  {
    if files == [] then Ok([])
    else
      match ScriptTag(url, path, files[0], doctype)
      case Err(e) => Err(e)
      case Ok(tag) =>
        match ScriptTags(url, path, files[1..], doctype)
        case Err(e) => Err(e)
        case Ok(tags) => Ok([tag] + tags)
  }

  /** `js`: `css`'s choice between one bundle tag and one tag per file, for scripts. */
  function Js(cfg: Config, filename: string): Result<string, FormatError>
  {
    var path := Strip('/', cfg.jsPath);
    if RemoteBundle(cfg, filename) then
      ScriptTag(cfg.mediaUrl, path, filename, cfg.doctype)
    else
      match ScriptTags(cfg.mediaUrl, path, Expand(cfg.joined, filename), cfg.doctype)
      case Err(e) => Err(e)
      case Ok(tags) => Ok(JoinWith(" ", tags))
  }

  /**
   * `ConditionalNode`: a parsed `{% ie %}`-style block, with the condition
   * format its tag chose and whether `newline` was given.
   */
  datatype ConditionalNode = ConditionalNode(conditionFormat: seq<string>, newline: bool)

  /**
   * `ConditionalNode.render`, given the rendered text of the block: the text,
   * padded with a newline on each side when `newline` is set, formatted
   * into the condition format.
   */
  function Render(node: ConditionalNode, inner: string): (r: Result<string, FormatError>)
    ensures node.newline ==> r == Format(Template(node.conditionFormat), ["\n" + inner + "\n"])
    ensures !node.newline ==> r == Format(Template(node.conditionFormat), [inner])
  {
    var text := if node.newline then
      OneSlotFormatFills(NewlinePieces, inner);
      Format(Template(NewlinePieces), [inner]).value
    else
      inner;
    Format(Template(node.conditionFormat), [text])
  }

  /*
   * Properties of the stylesheet tags.
   */

  /** A link tag ends in " />" exactly under the "xhtml" doctype, and always in ">". */
  lemma LinkTagEnding(url: string, path: string, filename: string, media: string, doctype: string)
    ensures EndsWith(LinkTag(url, path, filename, media, doctype), ">")
    ensures EndsWith(LinkTag(url, path, filename, media, doctype), " />") <==> doctype == "xhtml"
  {
    var r := LinkTag(url, path, filename, media, doctype);
    var body := "<link rel=\"stylesheet\" href=\"" + PathUrl(url, path) + "/" + filename
                + "\" type=\"text/css\" media=\"" + media;
    assert r == body + "\"" + LinkEnder(doctype);
    if doctype == "xhtml" {
      assert r[|r| - 3..] == " />";
    } else {
      assert r[|r| - 1..] == ">";
      assert r[|r| - 2] == '"';
    }
  }

  /** The text of a link tag after its opening `<`. */
  function LinkTagRest(u: string, filename: string, media: string, ender: string): string
  {
    "link rel=\"stylesheet\" href=\"" + u + "/" + filename + "\" type=\"text/css\" media=\"" + media + "\"" + ender
  }

  lemma LinkTextOpens(u: string, filename: string, media: string, ender: string)
    ensures "<link rel=\"stylesheet\" href=\"" + u + "/" + filename + "\" type=\"text/css\" media=\"" + media + "\"" + ender
      == "<" + LinkTagRest(u, filename, media, ender)
  {
    assert "<link rel=\"stylesheet\" href=\"" == "<" + "link rel=\"stylesheet\" href=\"";
  }

  lemma LinkTagRestPlain(u: string, filename: string, media: string, ender: string)
    requires '<' !in u && '<' !in filename && '<' !in media && '<' !in ender
    ensures '<' !in LinkTagRest(u, filename, media, ender)
  {
    assert '<' !in "link rel=\"stylesheet\" href=\"";
    assert '<' !in "\" type=\"text/css\" media=\"";
  }

  /** A link tag holds one `<` when its parts hold none: it is a single element. */
  lemma LinkTagCount(url: string, path: string, filename: string, media: string, doctype: string)
    requires '<' !in url && '<' !in path && '<' !in filename && '<' !in media
    ensures Count('<', LinkTag(url, path, filename, media, doctype)) == 1
  {
    var rest := LinkTagRest(PathUrl(url, path), filename, media, LinkEnder(doctype));
    var tag := LinkTag(url, path, filename, media, doctype);
    LinkTextOpens(PathUrl(url, path), filename, media, LinkEnder(doctype));
    LinkTagRestPlain(PathUrl(url, path), filename, media, LinkEnder(doctype));
    CountAppend('<', "<", rest);
    CountAbsent('<', rest);
  }

  /** A bundle served remotely gives one tag, for the bundle's own name. */
  lemma CssRemoteBundle(cfg: Config, filename: string, media: string)
    requires RemoteBundle(cfg, filename)
    ensures Css(cfg, filename, media) == LinkTag(cfg.mediaUrl, Strip('/', cfg.cssPath), filename, media, cfg.doctype)
  {
  }

  /**
   * Otherwise the names of the expansion give one tag each, in order,
   * joined by single spaces.
   */
  lemma CssExpanded(cfg: Config, filename: string, media: string)
    requires !RemoteBundle(cfg, filename)
    ensures Css(cfg, filename, media) ==
      JoinWith(" ", LinkTags(cfg.mediaUrl, Strip('/', cfg.cssPath), Expand(cfg.joined, filename), media, cfg.doctype))
  {
  }

  /** A name that is no bundle gives the one tag for that file. */
  lemma CssPlainFile(cfg: Config, filename: string, media: string)
    requires filename !in cfg.joined
    ensures Css(cfg, filename, media) == LinkTag(cfg.mediaUrl, Strip('/', cfg.cssPath), filename, media, cfg.doctype)
  {
    var tags := LinkTags(cfg.mediaUrl, Strip('/', cfg.cssPath), [filename], media, cfg.doctype);
    assert |tags| == 1;
  }

  /** An empty bundle that is not served remotely renders as nothing. */
  lemma CssEmptyBundle(cfg: Config, filename: string, media: string)
    requires !cfg.serveRemote && filename in cfg.joined && cfg.joined[filename] == []
    ensures Css(cfg, filename, media) == ""
  {
  }

  /**
   * `css` renders one tag for a remote bundle and otherwise exactly one tag
   * per file of the expansion, when no name holds a `<`.
   */
  lemma CssTagCount(cfg: Config, filename: string, media: string)
    requires '<' !in cfg.mediaUrl && '<' !in cfg.cssPath && '<' !in media && '<' !in filename
    requires forall i :: 0 <= i < |Expand(cfg.joined, filename)| ==> '<' !in Expand(cfg.joined, filename)[i]
    ensures Count('<', Css(cfg, filename, media)) ==
      if RemoteBundle(cfg, filename) then 1 else |Expand(cfg.joined, filename)|
  {
    var path := Strip('/', cfg.cssPath);
    StripSubset('/', cfg.cssPath, '<');
    if RemoteBundle(cfg, filename) {
      LinkTagCount(cfg.mediaUrl, path, filename, media, cfg.doctype);
    } else {
      var files := Expand(cfg.joined, filename);
      var tags := LinkTags(cfg.mediaUrl, path, files, media, cfg.doctype);
      forall i | 0 <= i < |tags| ensures Count('<', tags[i]) == 1 {
        LinkTagCount(cfg.mediaUrl, path, files[i], media, cfg.doctype);
      }
      CountJoin('<', " ", tags, 1);
    }
  }

  /** Leading and trailing `/` on the configured CSS path make no difference. */
  lemma CssPathSlashes(cfg: Config, filename: string, media: string, m: nat, n: nat)
    ensures Css(cfg.(cssPath := Repeat('/', m) + Strip('/', cfg.cssPath) + Repeat('/', n)), filename, media)
         == Css(cfg, filename, media)
  {
    StripPadded('/', m, Strip('/', cfg.cssPath), n);
  }

  /**
   * The bundle example: "bundle.css" joins "a.css" and "b.css". Served
   * remotely it is one tag for "bundle.css"; served locally it is the tags
   * for "a.css" and "b.css", separated by a space.
   */
  lemma CssBundleExample(url: string, doctype: string, serveRemote: bool)
    ensures var cfg := Config(map["bundle.css" := ["a.css", "b.css"]], serveRemote, doctype, url, "", "");
      Css(cfg, "bundle.css", DefaultMedia) ==
        if serveRemote then LinkTag(url, "", "bundle.css", DefaultMedia, doctype)
        else LinkTag(url, "", "a.css", DefaultMedia, doctype) + " " + LinkTag(url, "", "b.css", DefaultMedia, doctype)
  {
    var cfg := Config(map["bundle.css" := ["a.css", "b.css"]], serveRemote, doctype, url, "", "");
    assert Strip('/', "") == "";
    if !serveRemote {
      var tags := LinkTags(url, "", ["a.css", "b.css"], DefaultMedia, doctype);
      assert JoinWith(" ", tags) == tags[0] + " " + JoinWith(" ", tags[1..]);
    }
  }

  /*
   * Properties of the script tags.
   */

  /** The html5 script tags for `files`, one per file, in order. */
  function Html5Scripts(url: string, path: string, files: seq<string>): (tags: seq<string>)
    ensures |tags| == |files|
    ensures forall i :: 0 <= i < |files| ==>
      tags[i] == "<script src=\"" + PathUrl(url, path) + "/" + files[i] + "\"></script>"
  {
    seq(|files|, i requires 0 <= i < |files| => "<script src=\"" + PathUrl(url, path) + "/" + files[i] + "\"></script>")
  }

  /** A bundle served remotely gives one script tag, for the bundle's own name. */
  lemma JsRemoteBundle(cfg: Config, filename: string)
    requires RemoteBundle(cfg, filename)
    ensures Js(cfg, filename) == ScriptTag(cfg.mediaUrl, Strip('/', cfg.jsPath), filename, cfg.doctype)
  {
  }

  /** Under "html5", `js` always succeeds, with `css`'s choice of tags. */
  lemma JsHtml5(cfg: Config, filename: string)
    requires cfg.doctype == "html5"
    ensures RemoteBundle(cfg, filename) ==>
      Js(cfg, filename) == Ok(Html5Scripts(cfg.mediaUrl, Strip('/', cfg.jsPath), [filename])[0])
    ensures !RemoteBundle(cfg, filename) ==>
      Js(cfg, filename) == Ok(JoinWith(" ", Html5Scripts(cfg.mediaUrl, Strip('/', cfg.jsPath), Expand(cfg.joined, filename))))
  {
    var path := Strip('/', cfg.jsPath);
    var files := Expand(cfg.joined, filename);
    var r := ScriptTags(cfg.mediaUrl, path, files, cfg.doctype);
    if !RemoteBundle(cfg, filename) {
      assert r.Ok?;
      assert r.value == Html5Scripts(cfg.mediaUrl, path, files);
    }
  }

  /**
   * Under any other doctype, `js` fails with the formatting error unless it
   * formats no tag at all, which happens only for an empty bundle that is
   * not served remotely.
   */
  lemma JsOtherDoctype(cfg: Config, filename: string)
    requires cfg.doctype != "html5"
    ensures Js(cfg, filename) ==
      if !RemoteBundle(cfg, filename) && Expand(cfg.joined, filename) == [] then Ok("")
      else Err(NotEnoughArguments)
  {
    var path := Strip('/', cfg.jsPath);
    var files := Expand(cfg.joined, filename);
    if !RemoteBundle(cfg, filename) && files != [] {
      assert ScriptTag(cfg.mediaUrl, path, files[0], cfg.doctype).Err?;
    }
  }

  /** The text of an html5 script element between its two `<`. */
  function ScriptTagRest(u: string, filename: string): string
  {
    "script src=\"" + u + "/" + filename + "\">"
  }

  lemma ScriptTextOpens(u: string, filename: string)
    ensures "<script src=\"" + u + "/" + filename + "\"></script>"
      == "<" + ScriptTagRest(u, filename) + "</script>"
  {
    assert "<script src=\"" == "<" + "script src=\"";
    assert "\"></script>" == "\">" + "</script>";
  }

  lemma ScriptTagRestPlain(u: string, filename: string)
    requires '<' !in u && '<' !in filename
    ensures '<' !in ScriptTagRest(u, filename)
  {
  }

  /** An html5 script tag holds two `<`, one per tag of the element's pair. */
  lemma ScriptTagCount(url: string, path: string, filename: string)
    requires '<' !in url && '<' !in path && '<' !in filename
    ensures Count('<', ScriptTag(url, path, filename, "html5").value) == 2
  {
    var rest := ScriptTagRest(PathUrl(url, path), filename);
    var tag := ScriptTag(url, path, filename, "html5");
    ScriptTextOpens(PathUrl(url, path), filename);
    ScriptTagRestPlain(PathUrl(url, path), filename);
    assert Count('<', "</script>") == 1;
    CountAppend('<', "<" + rest, "</script>");
    CountAppend('<', "<", rest);
    CountAbsent('<', rest);
  }

  /** Under "html5", `js` renders one script element per tag `css` would render. */
  lemma JsTagCount(cfg: Config, filename: string)
    requires cfg.doctype == "html5"
    requires '<' !in cfg.mediaUrl && '<' !in cfg.jsPath && '<' !in filename
    requires forall i :: 0 <= i < |Expand(cfg.joined, filename)| ==> '<' !in Expand(cfg.joined, filename)[i]
    ensures Js(cfg, filename).Ok?
    ensures Count('<', Js(cfg, filename).value) ==
      2 * if RemoteBundle(cfg, filename) then 1 else |Expand(cfg.joined, filename)|
  {
    var path := Strip('/', cfg.jsPath);
    StripSubset('/', cfg.jsPath, '<');
    JsHtml5(cfg, filename);
    if RemoteBundle(cfg, filename) {
      ScriptTagCount(cfg.mediaUrl, path, filename);
    } else {
      var files := Expand(cfg.joined, filename);
      var tags := Html5Scripts(cfg.mediaUrl, path, files);
      forall i | 0 <= i < |tags| ensures Count('<', tags[i]) == 2 {
        ScriptTagCount(cfg.mediaUrl, path, files[i]);
      }
      CountJoin('<', " ", tags, 2);
    }
  }

  /**
   * Left unset, the doctype is "xhtml": link tags self-close, and `js`
   * fails for every name that expands to at least one file.
   */
  lemma DefaultDoctype(h: HostSettings, filename: string)
    requires h.mediasyncDoctype == None
    ensures ReadConfig(h).doctype == "xhtml"
    ensures LinkEnder(ReadConfig(h).doctype) == " />"
    ensures Js(ReadConfig(h), filename).Err? <==>
      RemoteBundle(ReadConfig(h), filename) || Expand(ReadConfig(h).joined, filename) != []
  {
    JsOtherDoctype(ReadConfig(h), filename);
  }

  /*
   * Properties of the conditional block.
   */

  /** The padded or unpadded block text. */
  function Wrapped(node: ConditionalNode, inner: string): string
  {
    if node.newline then "\n" + inner + "\n" else inner
  }

  /**
   * A condition format with one `%s` puts the block text between its two
   * pieces; one with no `%s` or with more fails to format.
   */
  lemma RenderFormats(node: ConditionalNode, inner: string)
    requires |node.conditionFormat| >= 1
    requires forall i :: 0 <= i < |node.conditionFormat| ==> '%' !in node.conditionFormat[i]
    ensures |node.conditionFormat| == 2 ==>
      Render(node, inner) == Ok(node.conditionFormat[0] + Wrapped(node, inner) + node.conditionFormat[1])
    ensures |node.conditionFormat| == 1 ==> Render(node, inner) == Err(NotAllConverted)
    ensures |node.conditionFormat| >= 3 ==> Render(node, inner) == Err(NotEnoughArguments)
  {
    FormatTemplate(node.conditionFormat, [Wrapped(node, inner)]);
    if |node.conditionFormat| == 2 {
      FillOne(node.conditionFormat, [Wrapped(node, inner)]);
    }
  }

  /** The `ie`, `ie6` and `ie7` blocks wrap their text in the matching conditional comment. */
  lemma RenderIe(node: ConditionalNode, inner: string)
    ensures node.conditionFormat == IePieces ==>
      Render(node, inner) == Ok("<!--[if IE]>" + Wrapped(node, inner) + "<![endif]-->")
    ensures node.conditionFormat == Ie6Pieces ==>
      Render(node, inner) == Ok("<!--[if IE 6]>" + Wrapped(node, inner) + "<![endif]-->")
    ensures node.conditionFormat == Ie7Pieces ==>
      Render(node, inner) == Ok("<!--[if IE 7]>" + Wrapped(node, inner) + "<![endif]-->")
  {
    IeFormatFills(Wrapped(node, inner));
    Ie6FormatFills(Wrapped(node, inner));
    Ie7FormatFills(Wrapped(node, inner));
  }
}

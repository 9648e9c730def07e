# mediasync template tags and settings store, in Dafny

This project models the two pieces of django-mediasync that hold its logic.

- **The template tags** (`mediasync/templatetags/media.py`, module `Media`).
  `css` and `js` emit `<link>` and `<script>` markup for a file. For a bundle
  they emit either one tag for the joined file, when assets are served
  remotely, or one tag per file of the bundle, joined by single spaces.
  `css_print` and the deprecated `css_ie`, `css_ie6` and `css_ie7` wrap
  `css`. `ConditionalNode.render` wraps a rendered block in an IE
  conditional comment.
- **The settings store** (`mediasync/conf.py`, module `Conf`). There is one
  process-wide dictionary `_settings`, pre-filled with defaults. `Settings`
  objects overlay a user mapping onto it and read, write and delete its
  options. Every instance shares that one dictionary.

The module flags `JOINED`, `SERVE_REMOTE` and `DOCTYPE`, the base URL
`MEDIA_URL`, and the `MEDIASYNC_CSS_PATH` / `MEDIASYNC_JS_PATH` settings are
inputs. `Media.Config` holds them. `Media.ReadConfig` applies the defaults
media.py uses when a setting is unset: no bundles, remote serving unless in
debug mode, the `"xhtml"` doctype, and empty paths. This `"xhtml"` default
belongs to media.py. The `"html5"` default in conf.py's store is a
different value, and the tags never read it.

Every `%`-formatting in media.py goes through `Strings.Format`. It models
Python's `fmt % args` for string arguments: `%s`, `%%`, and the errors for
too few arguments, unconverted arguments, an incomplete format and an
unsupported conversion. Each format string of the module is written as its
literal pieces between `%s` markers (`Media.LinkPieces` and so on).
`Strings.FormatTemplate` says exactly when such a format succeeds and what
it produces.

This is how the model keeps a defect of the source. The non-html5 script
format (media.py:71) names `type` and `charset`, but it has three `%s` and
is given two arguments, so it never formats. `scripttag` therefore fails
under every doctype except `"html5"`, and `Media.ScriptTag` returns
`Err(NotEnoughArguments)` there. `scripttag` is called once per file of the
expansion, so an empty bundle that is not served remotely formats nothing
and `js` returns `""` (media.py:80-81). `Media.JsOtherDoctype` states both
cases. Under the default `"xhtml"` doctype, `js` therefore fails for every
name that formats at least one tag: a remote bundle, or a name that expands
to at least one file (`Media.DefaultDoctype`).

Only `"xhtml"` gets `" />"` as the link ender (media.py:25); every other
doctype, `"html5"` included, gets `">"`.

Files: `wrappers.dfy` (Option, Result, Outcome), `strings.dfy` (Python
`%`-formatting, `strip`, `join`, character counts), `media.dfy`, `conf.dfy`.

## Model

| member | source | states |
|---|---|---|
| `Strings.Format` | mediasync/templatetags/media.py:72 | `fmt % args` for string arguments: `%s`, `%%`, and the errors for too few arguments, unconverted arguments, an incomplete format and an unsupported conversion. No contract of its own; `Strings.FormatTemplate` and `Strings.FormatLiteral` state when it succeeds and what it yields. |
| `Strings.JoinWith` | mediasync/templatetags/media.py:40 | `sep.join(parts)`. No contract of its own; `Strings.CountJoin`, `Media.CssExpanded` and `Media.CssBundleExample` state what it produces. |
| `Strings.FormatTemplate` | mediasync/templatetags/media.py:69-72 | A format made of `%`-free pieces and `%s` succeeds exactly when it gets one argument per `%s`, and then interleaves pieces and arguments. With fewer arguments it fails with "not enough arguments". With more it fails with "not all arguments converted". |
| `Strings.FormatLiteral` | mediasync/templatetags/media.py:31 | Literal text without `%` is copied through formatting unchanged. |
| `Strings.Strip` | mediasync/templatetags/media.py:35 | `strip('/')` gives the slice of the input after its leading run of `/`. The result neither starts nor ends with `/`. |
| `Strings.StripPadding` | mediasync/templatetags/media.py:35 | Every character of the input outside the stripped slice is `/`. |
| `Strings.StripPadded` | mediasync/templatetags/media.py:35 | Stripping undoes any `/` padding of a string that neither starts nor ends with `/` (the inverse of padding). |
| `Strings.StripIdempotent` | mediasync/templatetags/media.py:35 | Stripping twice equals stripping once. |
| `Strings.CountJoin` | mediasync/templatetags/media.py:40 | Suppose the single-space separator holds no `c` and each part holds `k` of them. Then the joined string holds `k` times the number of parts. |
| `Media.PathUrl` | mediasync/templatetags/media.py:28-29 | The URL is `url` alone when the path is empty, else `url + "/" + path`. |
| `Media.LinkTag` | mediasync/templatetags/media.py:27-31 | The tag is `<link rel="stylesheet" href="URL/filename" type="text/css" media="MEDIA"` followed by the ender, with the path-extended URL and `media` inserted verbatim. |
| `Media.LinkTagEnding` | mediasync/templatetags/media.py:25-31 | A link tag always ends in `>`. It ends in `" />"` exactly when the doctype is `"xhtml"`. |
| `Media.LinkTagCount` | mediasync/templatetags/media.py:31 | A link tag holds exactly one `<` when its inputs hold none. |
| `Media.CssRemoteBundle` | mediasync/templatetags/media.py:34-37 | With remote serving on and the name a key of `JOINED`, `css` is the one tag for the name itself, under the stripped CSS path. |
| `Media.CssExpanded` | mediasync/templatetags/media.py:38-40 | Otherwise `css` is the single-space join of one tag per expanded name, in order, under the stripped CSS path. |
| `Media.CssPlainFile` | mediasync/templatetags/media.py:39-40 | A name that is no key of `JOINED` gives the one tag for that file. |
| `Media.CssEmptyBundle` | mediasync/templatetags/media.py:39-40 | An empty bundle that is not served remotely renders as `""`. |
| `Media.CssTagCount` | mediasync/templatetags/media.py:34-40 | Assume no name holds `<`. Then `css` renders 1 tag for a remote bundle and otherwise exactly as many tags as the expansion has names. |
| `Media.CssPathSlashes` | mediasync/templatetags/media.py:35 | `css` depends on the CSS path only through its stripped form; any `/` padding of that form gives the same `css`. |
| `Media.CssBundleExample` | mediasync/templatetags/media.py:34-40 | For `{"bundle.css": ["a.css", "b.css"]}`: served remotely, the result is the one tag for `bundle.css`. Served locally, it is the tags for `a.css` and `b.css` joined by a space. |
| `Media.CssPrint` | mediasync/templatetags/media.py:43-44 | `css_print(f)` is `css(f, "print")`. |
| `Media.CssIe` | mediasync/templatetags/media.py:47-49 | The result is `<!--[if IE]>`, then `css(f)` with the default media, then `<![endif]-->`. |
| `Media.CssIe6` | mediasync/templatetags/media.py:52-54 | The result is `<!--[if IE 6]>`, then `css(f)` with the default media, then `<![endif]-->`. |
| `Media.CssIe7` | mediasync/templatetags/media.py:57-59 | The result is `<!--[if IE 7]>`, then `css(f)` with the default media, then `<![endif]-->`. |
| `Media.ScriptFormatFails` | mediasync/templatetags/media.py:71-72 | The non-html5 script format, given two arguments for three `%s`, fails with "not enough arguments". |
| `Media.ScriptTag` | mediasync/templatetags/media.py:65-72 | Under `"html5"` the tag is `<script src="URL/filename"></script>`, with no `type` or `charset`. Under any other doctype it fails with the formatting error. |
| `Media.ScriptTagCount` | mediasync/templatetags/media.py:69 | An html5 script element holds exactly two `<` when its inputs hold none. |
| `Media.ScriptTags` | mediasync/templatetags/media.py:80-81 | Scripts are generated one file at a time and the first failure stops the run. The run succeeds exactly when no file's tag fails. It then yields one tag per file, in order. |
| `Media.JsRemoteBundle` | mediasync/templatetags/media.py:77-78 | With remote serving on and the name a key of `JOINED`, `js` is the one script tag for the name itself, under the stripped JS path. |
| `Media.JsHtml5` | mediasync/templatetags/media.py:74-81 | Under `"html5"`, `js` always succeeds. It gives one script tag for a remote bundle and otherwise the space-joined script tags of the expansion. |
| `Media.JsOtherDoctype` | mediasync/templatetags/media.py:68-81 | Under any other doctype, `js` returns `""` when it formats no tag, which happens only for an empty bundle not served remotely. In every other case it fails with "not enough arguments". |
| `Media.JsTagCount` | mediasync/templatetags/media.py:74-81 | Under `"html5"` and with no `<` in the names, `js` renders one script element per tag `css` would render. |
| `Media.DefaultDoctype` | mediasync/templatetags/media.py:9 | With `MEDIASYNC_DOCTYPE` unset, the doctype is `"xhtml"` and link tags end in `" />"`. `js` then fails exactly for the names that format at least one tag. |
| `Media.Render` | mediasync/templatetags/media.py:117-121 | `newline` wraps the block text as `"\n" + inner + "\n"` before it is formatted into the condition format. Without `newline` the text is formatted unchanged. |
| `Media.RenderFormats` | mediasync/templatetags/media.py:117-121 | A condition format with one `%s` puts the text between its two pieces. One with no `%s` fails because the argument is not converted. One with several `%s` fails for lack of arguments. |
| `Media.RenderIe` | mediasync/templatetags/media.py:89-99 | The `ie`, `ie6` and `ie7` blocks render as `<!--[if IE…]>`, then the (padded) text, then `<![endif]-->`. |
| `Media.ReadConfig` | mediasync/templatetags/media.py:7-9 | No contract of its own: the flags take the host's values, else no bundles, remote serving unless in debug mode, and `"xhtml"`. `Media.DefaultDoctype` states what the default doctype implies. |
| `Media.LinkEnder` | mediasync/templatetags/media.py:25 | `LINK_ENDER`: no contract of its own; `Media.LinkTagEnding` states that tags end in `" />"` exactly under `"xhtml"`. |
| `Media.LinkTags` | mediasync/templatetags/media.py:40 | The generator: one link tag per file, in order, as many tags as files. |
| `Media.Expand` | mediasync/templatetags/media.py:39 | `JOINED.get(filename, (filename,))`: no contract of its own; `Media.CssPlainFile` and `Media.CssEmptyBundle` state its two cases as `css` sees them. |
| `Media.Css` | mediasync/templatetags/media.py:34-40 | No contract of its own; `Media.CssRemoteBundle`, `Media.CssExpanded`, `Media.CssTagCount` and `Media.CssPathSlashes` state what it promises. |
| `Media.Js` | mediasync/templatetags/media.py:74-81 | No contract of its own; `Media.JsRemoteBundle`, `Media.JsHtml5`, `Media.JsOtherDoctype` and `Media.JsTagCount` state what it promises. |
| `Conf.Truthy` | mediasync/conf.py:11-14 | Python truthiness as `or` and `not` use it: `None`, `False`, `0`, and empty strings, dicts and tuples are false. No contract of its own; `Conf.Or` uses it. |
| `Conf.Or` | mediasync/conf.py:11-12 | `a or b` is `a` when `a` is truthy and `b` otherwise. |
| `Conf.Defaults` | mediasync/conf.py:4-16 | The store starts with exactly the eleven default options. |
| `Conf.Store.constructor` | mediasync/conf.py:4-16 | The shared dictionary starts as the defaults. |
| `Conf.DefaultEntries` | mediasync/conf.py:4-16 | Among the defaults, `EXPIRATION_DAYS` is 365 and `DOCTYPE` is `"html5"`. `STATIC_ROOT` is the static root or, when that is falsy, the media root; `STATIC_URL` likewise falls back to the media URL. `SERVE_REMOTE` is `not DEBUG`. |
| `Conf.Settings.constructor` | mediasync/conf.py:20-22 | Constructing a `Settings` from a mapping writes each of its options into the shared store. Afterwards every option of the mapping holds its value, and every other option keeps its old value. |
| `Conf.Settings.Delete` | mediasync/conf.py:24-25 | `del s[k]` removes `k` and leaves every other option unchanged. When `k` is absent it raises `KeyError` and changes nothing. |
| `Conf.Settings.Item` | mediasync/conf.py:27-28 | `s[k]` is the stored value, or `None` when `k` is absent. It is not an error. |
| `Conf.Settings.Set` | mediasync/conf.py:30-31 | After `s[k] = v`, the store is the old store with `k` mapped to `v`. |
| `Conf.Settings.Get` | mediasync/conf.py:36-37 | `s.get(k, d)` is the stored value when `k` is present, and `d` otherwise. |
| `Conf.WriteThenRead` | mediasync/conf.py:30-31 | After a write, the option reads back as written, and any other option reads as it did before. |
| `Conf.LastWriteWins` | mediasync/conf.py:30-31 | Of two writes to one option, only the second remains. |
| `Conf.SharedStore` | mediasync/conf.py:30-37 | A write through one `Settings` is read through any other `Settings` over the same store. |
| `Conf.DeleteTwice` | mediasync/conf.py:24-28 | After a delete the option reads as `None`. A second delete raises `KeyError`. |
| `Conf.Startup` | mediasync/conf.py:4-37 | Consider a fresh store with a user mapping that overrides neither `EXPIRATION_DAYS` nor `DOCTYPE`. The mapping's options hold their values, `EXPIRATION_DAYS` is 365 and `DOCTYPE` is `"html5"`. After setting `EXPIRATION_DAYS` to 30, it reads 30. |

## Left out

- The `syncmedia` management command (mediasync/management/commands/syncmedia.py). It is a thin CLI wrapper: it sets `SERVE_REMOTE`, calls the sync routine, and turns `ValueError` into a command error. The sync routine is not part of this model.
- Django template machinery is not modelled, because these are framework calls: the `register` decorators, `template.Library`, and `conditional`'s `parser.parse`, `delete_first_token` and `split_contents`. `Media.Render` takes the block's rendered text as input, and the three formats that `ie`, `ie6` and `ie7` pass are `Media.IePieces`, `Media.Ie6Pieces` and `Media.Ie7Pieces`.
- The `DeprecationWarning`s are not modelled. They do not change any output.
- `media_url` and `Settings.__str__` are left out: one returns a constant, the other is Python `repr` formatting.
- Reading `django.conf.settings`, and `mediasync.MEDIA_URL`, are inputs (`Media.HostSettings`, `Media.Config`, `Conf.HostSettings`). The module instance `msettings = Settings(settings.MEDIASYNC)` is `Conf.Settings.constructor` applied to that input.
- The media.py tags read the CSS and JS paths on every call. The model reads them once, in `Media.Config`, and assumes the host settings do not change between calls.
- `PROCESSORS` and `URL_PROCESSOR` are foreign callables. The store holds them as named `Callable` values, and nothing calls them.
- Strings.Format: only `%s` and `%%` are modelled. Flags, widths, mapping keys and other conversions are refused as unsupported. media.py uses none of them.
- Media.Config: a `JOINED` entry is a sequence of file names. Python would accept any iterable; a bare string, for example, would be iterated character by character.
- Media.CssTagCount, Media.JsTagCount: tags are counted by their `<` characters, so these lemmas assume that no URL, path, name or media string contains `<`.
- The Python `str`/`unicode` distinction is not modelled. Strings are sequences of characters.
- Conf.Store: the one module-global `_settings` is a `Store` object that callers pass to each `Settings`. That all instances share one store is a caller obligation (`requires a.store == b.store` in `Conf.SharedStore`); the model also admits separate stores, which the source cannot have.
- Concurrent access to the shared store is not modelled. The source has no locking, and the model is sequential.

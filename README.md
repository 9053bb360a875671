# alerta-plugin-askap, modelled in Dafny

This project models the core of `alerta_askap.py`. That file is the ASKAP plugin for the
Alerta alert server. It normalises incoming alerts and forwards them to Slack, and the model
covers the following parts:

- **`pre_receive`.** It maps the alert's severity through `ASKAP_ALERT_SEVERITY_MAP`. It then
  attaches a Grafana dashboard link, which depends on the alert's origin:
  - For a Kapacitor alert, it builds an HTML anchor whose URL carries the alert's `key=value`
    tags as `var-key=value` query parameters.
  - For a Grafana alert, it moves `ruleUrl` to the `Grafana Dashboard` attribute. It also
    takes the alert's service from a `service = <name>` directive in the alert text.
- **`_slack_prepare_payload`, without templates.** It picks the attachment colour, the channel
  and the summary line. With attachments on, it also builds the fields. One of them is read
  back from the dashboard attribute through `LinkParser`.
- **`LinkParser`.** This is the `HTMLParser` subclass that keeps the last `href` and the last
  text it saw.
- **`__init__`.** It builds the colour table from the defaults updated with
  `SLACK_SEVERITY_MAP`.
- **The send gates.** These are in `post_receive` (repeats are skipped) and in
  `status_change` (only `ack`/`assign`, and only when `SLACK_SEND_ON_ACK` is on).

Modules:

- `Wrappers`: `Option` and `Result`.
- `Text`: the Python string operations the plugin uses, each with its character-level
  meaning. They are `lower`, `capitalize`, `replace`, `split` and `join`.
- `Alerts`: the alert, as a class whose fields `pre_receive` updates in place, and as the
  value `AlertData` that the specifications read. It also holds the errors: the two
  exceptions the code raises, and one that marks input outside the model.
- `Tags`: `_make_url_params_from_tags`. It has the loop (`MakeUrlParams`) and its
  specification (`UrlParams`), and relates that specification to an independent
  `'?' + '&'.join(...)` form.
- `Links`: `LinkParser`, driven by the events `HTMLParser.feed` reports.
- `Directive`: `re.split('.*service\ *=\ *', text)[1]`. It is computed by scanning for
  occurrences of the pattern and characterised by lemmas.
- `Plugin`: the configuration, `pre_receive` as the pure function `Enrich`, and the payload as
  the pure function `Render`. It also holds the class `ServiceIntegration`, whose methods
  update the alert or read it, proved against those functions.

An operation that raises in the plugin returns `Err` in the model. The plugin raises two
exceptions. The first is the `ValueError` of an unpackable tag (`TagUnpack`), at two places: the
URL parameters (line 87) and the tag fields (line 233). The second is the `IndexError` of
`alert.service[0]` on an empty list (`NoService`, line 175). The third error, `UnparsedLink`, is not something the plugin raises. It marks
a dashboard attribute outside the HTML the model parses (see "## Left out").

The directive is found on the first line of the text that holds an occurrence of
`service =`. It keeps what follows the LAST occurrence on that line and the spaces after it,
up to the next line holding another occurrence. So `"... service = billing ..."` routes to
`"billing ..."`, and `"service = a service = b"` routes to `"b"`. The plugin has no flapping logic and no `dashboard=` tag override.

## Model

| member | source | states |
|---|---|---|
| Text.Lower | alerta_askap.py:135 | `lower()`: same length, each character mapped to lower case |
| Text.Capitalize | alerta_askap.py:199 | `capitalize()`: first character upper case, every later one lower case |
| Text.ReplaceChar | alerta_askap.py:131 | `replace(a, b)` on one character: each `a` becomes `b`, everything else is kept |
| Text.Split | alerta_askap.py:87 | `split('=')`: one piece more than there are separators, no piece holds one, joining the pieces gives the input back |
| Tags.ParseTag | alerta_askap.py:86-87 | a tag is skipped exactly when it holds no '=' |
| Tags.ParseTagMeaning | alerta_askap.py:87 | the unpack `k, v = tag.split('=')` fails exactly when the tag holds two or more '='; otherwise `k + '=' + v` is the tag and neither part holds '=' |
| Tags.ParseTagIsSplit | alerta_askap.py:87 | the parsed pair is exactly the two pieces of `split('=')`, and a pair exists exactly when there are two pieces |
| Tags.FirstMalformed | alerta_askap.py:85-87 | the index of the tag whose unpack raises first; every tag before it unpacks |
| Tags.PairsLength | alerta_askap.py:85-89 | with no malformed tag, one parameter per tag holding '=' |
| Tags.PairsFromTags | alerta_askap.py:85-88 | every parameter `key=value` is one of the alert's tags |
| Tags.QueryStringIsJoin | alerta_askap.py:82-89 | the `join` variable's '?'-then-'&' scheme equals `'?' + '&'.join(params)`, and gives '' for no parameters |
| Tags.QueryStringEmpty | alerta_askap.py:82-89 | the parameters are empty exactly when no pair was kept |
| Tags.QueryStringSnoc | alerta_askap.py:88-89 | one more pair appends `?var-k=v` when it is the first pair and `&var-k=v` otherwise |
| Tags.UrlParams | alerta_askap.py:81-90 | `_make_url_params_from_tags` as a function: the error of the first tag holding two or more '=', else the query string of the kept pairs; its contract is stated by `UrlParamsErrIff`, `UrlParamsEmptyIff`, `UrlParamsSnoc` and `MakeUrlParams` |
| Tags.MakeUrlParams | alerta_askap.py:81-90 | the loop returns `UrlParams(tags)`: the error of the first malformed tag, or the query string of the kept pairs |
| Tags.UrlParamsEmptyIff | alerta_askap.py:81-90 | the result is `''` exactly when no tag holds '=' |
| Tags.UrlParamsErrIff | alerta_askap.py:85-87 | the function raises exactly when some tag holds two or more '=' |
| Tags.UrlParamsSnoc | alerta_askap.py:85-89 | a further tag: without '=' it changes nothing; a pair appends its parameter after '?' or '&'; a malformed one raises its error |
| Links.Tokenize | alerta_askap.py:221 | the events `HTMLParser.feed` reports for the covered inputs; what they read back to is stated by `AnchorRoundTrip`, `PlainTextHasNoHref` and `WithheldTextIsLost` |
| Links.LastHref | alerta_askap.py:98-101 | `_href` becomes the value of the last `href` attribute, or stays as it was when there is none |
| Links.LinkParser.constructor | alerta_askap.py:93-96 | a new parser has neither href nor title |
| Links.LinkParser.HandleStartTag | alerta_askap.py:98-101 | the loop over the attributes leaves `_href` as `LastHref` says and `_title` unchanged |
| Links.LinkParser.HandleData | alerta_askap.py:103-104 | `_title` becomes the data and `_href` is unchanged |
| Links.LinkParser.Feed | alerta_askap.py:92-110 | feeding runs the callbacks over the events of the input, so the state is the replay of those events; uncovered input changes nothing |
| Links.AnchorRoundTrip | alerta_askap.py:220-222 | reading back the anchor `pre_receive` writes gives its href and its caption (no title for an empty caption) |
| Links.PlainTextHasNoHref | alerta_askap.py:220-222 | a plain URL (no '<', every '&' starting `&var-`, not withheld) reads back with no href and the URL as title |
| Links.WithheldTextIsLost | alerta_askap.py:220-222 | text whose last '&' lies in its final 34 characters, with no whitespace or ';' after it, reads back with neither href nor title |
| Directive.MatchEnd | alerta_askap.py:145 | an occurrence of `service *= *` found at `i` ends after the keyword and at least one more character, on the line it starts on, after a ' ' or '=' and before a non-space |
| Directive.MatchEndIff | alerta_askap.py:145 | an occurrence starts at `i` exactly when `service` does and a run of spaces after it leads to '=' |
| Directive.MatchEndShape | alerta_askap.py:145 | a found occurrence is `service`, then exactly one '=' with only spaces around it up to its end, and no space right after it |
| Directive.KeywordAtIsKeyword | alerta_askap.py:145 | the character test for the keyword is comparison with `"service"` |
| Directive.DirectiveIff | alerta_askap.py:145-147 | `len(parts) > 1` exactly when the pattern occurs somewhere in the text |
| Directive.ServiceDirective | alerta_askap.py:145-147 | `parts[1]` when there is one; its contract is stated by `DirectiveIff`, `DirectiveStart`, `DirectiveInside`, `DirectiveEnd` and `SingleLineDirective` |
| Directive.SingleLineDirective | alerta_askap.py:145-147 | on one line, `parts[1]` is everything after the last occurrence and its trailing spaces |
| Directive.DirectiveStart | alerta_askap.py:145-147 | `parts[1]` starts right after an occurrence on the first line that holds one |
| Directive.DirectiveInside | alerta_askap.py:145-147 | no occurrence of the pattern starts inside `parts[1]` |
| Directive.DirectiveEnd | alerta_askap.py:145-147 | `parts[1]` runs to the end of the text, or to the start of the next line that holds an occurrence |
| Plugin.MapSeverity | alerta_askap.py:125-127 | the severity through `ASKAP_ALERT_SEVERITY_MAP`; `EnrichKeeps` states the mapped severity |
| Plugin.MoveRuleUrl | alerta_askap.py:140-141 | the dashboard attribute gets the `ruleUrl` value, `ruleUrl` is gone, and every other attribute is kept |
| Plugin.Enrich | alerta_askap.py:121-149 | `pre_receive` on the alert's fields; its contract is stated by `EnrichKeeps`, `EnrichKapacitor`, `GrafanaMigration`, `GrafanaWithoutRuleUrl` and `GrafanaSingleLineService` |
| Plugin.EnrichKeeps | alerta_askap.py:121-149 | `pre_receive` fails only for a Kapacitor alert with a malformed tag; it maps the severity and changes only the severity, attributes and service; and only the severity for other origins |
| Plugin.EnrichKapacitor | alerta_askap.py:129-136 | a Kapacitor alert whose tags parse has its severity mapped and the dashboard attribute set to the anchor of its dashboard URL and name; the service and every other attribute are kept |
| Plugin.GrafanaWithoutRuleUrl | alerta_askap.py:137 | a Grafana alert without `ruleUrl` only has its severity mapped |
| Plugin.GrafanaMigration | alerta_askap.py:137-147 | the `ruleUrl` move, with the service set to `[directive]` when the text has one and kept otherwise |
| Plugin.GrafanaSingleLineService | alerta_askap.py:143-147 | for one-line text, the service becomes the text after the last `service =` |
| Plugin.GrafanaServiceChannel | alerta_askap.py:174-175 | with service channels on, a Grafana alert's directive decides its channel |
| Plugin.KapacitorHrefSafe | alerta_askap.py:131-136 | with markup-free inputs, the dashboard URL survives being put in an HTML attribute |
| Plugin.KapacitorLinkReadsBack | alerta_askap.py:129-136 | the stored anchor parses back to the dashboard URL and the dashboard name |
| Plugin.KapacitorDashboardField | alerta_askap.py:219-223 | for such an alert, the Grafana field links the dashboard URL and shows the dashboard name |
| Plugin.GrafanaPlainUrlField | alerta_askap.py:219-223 | for a migrated plain `ruleUrl` (every '&' starting `&var-`, not withheld), the Grafana field shows the URL as its label and `None` as its link |
| Plugin.Colour | alerta_askap.py:169-172 | the attachment colour; `ColourChoice` states it |
| Plugin.ColourChoice | alerta_askap.py:169-172 | the colour is the user's for the severity, else the default one, else green |
| Plugin.SeveritiesUpdateIdempotent | alerta_askap.py:116-117 | updating the shared table with the user's map again changes nothing |
| Plugin.ChannelName | alerta_askap.py:175 | the channel name is the service lower-cased, with '.' and ' ' turned into '_' |
| Plugin.Channel | alerta_askap.py:174-177 | the channel comes from the first service (failing on none) with service channels on; otherwise from the environment's channel or the default |
| Plugin.Icon | alerta_askap.py:198 | the summary's emoji; `IconChoice` states it |
| Plugin.IconChoice | alerta_askap.py:76-79 | `OK`, `MINOR` and `MAJOR` have their own emoji, every other severity `:question:` |
| Plugin.StatusShown | alerta_askap.py:181 | `status if status else alert.status`; `SummaryStatus` states its use |
| Plugin.Summary | alerta_askap.py:197-208 | the default summary line; `SummaryStatus` states it |
| Plugin.SummaryStatus | alerta_askap.py:197-199 | the summary opens with the severity's emoji and ` *[`, then the capitalised non-empty status override or else the alert's status, then `]`; it ends with `>` |
| Plugin.DashboardField | alerta_askap.py:219-223 | the Grafana field read back through `LinkParser`, for the dashboard attributes `Tokenize` covers; `FieldsParts`, `KapacitorDashboardField` and `GrafanaPlainUrlField` state it |
| Plugin.TextShown | alerta_askap.py:229 | `text or alert.text`; `FixedFieldsText` states its use |
| Plugin.FixedFields | alerta_askap.py:225-230 | the four fixed fields; `FixedFieldsText` states them |
| Plugin.FixedFieldsText | alerta_askap.py:225-230 | the fixed fields are Origin, Subsystem (services joined by `", "`), Value and Text, all short; Text is the non-empty override, else the alert's text |
| Plugin.TagFieldsPairs | alerta_askap.py:231-234 | one field per kept pair, in order, titled with the key |
| Plugin.FieldsLayout | alerta_askap.py:217-234 | the fields are the Grafana field (if any), the four fixed ones, then one per tag with '=', in the tags' order (`TagFields(Pairs(tags))`), each being a tag's `key=value`, all short |
| Plugin.Render | alerta_askap.py:167-247 | `_slack_prepare_payload` without templates, for the dashboard attributes `Tokenize` covers; its contract is stated by `RenderErrIff` and `RenderPayload` |
| Plugin.RenderErrIff | alerta_askap.py:167-247 | the payload fails exactly for an empty service list with service channels on, or (with attachments) a malformed tag or a dashboard attribute outside the model's HTML (a model limit, not an exception of the plugin) |
| Plugin.RenderPayload | alerta_askap.py:209-245 | the payload carries the user, icon, channel and summary; an attachment exactly when attachments are on, whose fallback is the summary, with the severity's colour and the fields |
| Plugin.CollectTagFields | alerta_askap.py:231-234 | the tag loop appends the tag fields, or stops with the first malformed tag's error |
| Plugin.ServiceIntegration.constructor | alerta_askap.py:114-117 | the colour table is the defaults updated with the user's map |
| Plugin.ServiceIntegration.PreReceive | alerta_askap.py:121-149 | the alert ends as `Enrich` says; on a malformed tag it stops with that error, the severity already mapped and nothing else changed |
| Plugin.ServiceIntegration.AddDashboardLink | alerta_askap.py:129-136 | stores the dashboard anchor, or stops at a malformed tag with the alert unchanged |
| Plugin.ServiceIntegration.MoveGrafanaRule | alerta_askap.py:137-147 | the alert ends as `MigrateRuleUrl` of the alert it started as |
| Plugin.ServiceIntegration.PreparePayload | alerta_askap.py:167-247 | the payload is `Render` of the alert |
| Plugin.ServiceIntegration.ReadDashboard | alerta_askap.py:219-223 | a fresh parser fed the dashboard attribute gives `DashboardField` |
| Plugin.ServiceIntegration.PostReceive | alerta_askap.py:249-261 | a payload is sent exactly when the alert is not a repeat and the payload can be prepared |
| Plugin.ServiceIntegration.StatusChange | alerta_askap.py:271-282 | a payload is sent exactly for `ack` or `assign` with `SLACK_SEND_ON_ACK` on, when it can be prepared; the new status and text override the alert's |

## Left out

- Sending the payload: the HTTP POST to the webhook, its timeout and the `RuntimeError` on a
  connection failure are I/O. `PostReceive` and `StatusChange` return the payload that would be
  sent.
- Logging. The exception handlers only log and return, so an error while preparing the payload
  becomes "nothing sent".
- Templates: `SLACK_PAYLOAD` and a string `SLACK_SUMMARY_FMT` are rendered by Jinja, a foreign
  library. The model covers the default summary format and the payload without a template.
- Configuration loading: settings come from the environment and the server configuration,
  with the `json.loads` fallback. The model takes them as the values of `Config`.
  `SLACK_SEND_ON_ACK` is a boolean in the model. An environment string such as `"False"` is not
  `== False` in the code and so switches sending on. That effect belongs to configuration
  loading, which is not modelled.
- Plugin.ServiceIntegration.constructor: the code updates the shared module-level default
  table in place, so every instance and the module see the merged table. The model gives each
  instance its own merged map. `SeveritiesUpdateIdempotent` shows that repeated merges agree.
- Links.LinkParser.Feed: `HTMLParser` and `html.unescape` come from the standard library, and
  the model does not contain them. `Tokenize` gives the events for three kinds of input:
  - the anchor `pre_receive` writes (href without markup characters, '&' only before `var-`);
  - text without '<' that `HTMLParser` withholds (last '&' in the final 34 characters, with no
    whitespace or ';' after it);
  - other text without '<' whose every '&' starts `&var-`.
- Plugin.DashboardField, Plugin.Render, Plugin.RenderErrIff: every other dashboard attribute
  gives the model error `UnparsedLink`, which `DashboardField` returns.
  Examples are other markup, or a '&' before anything but `var-` outside the withheld tail,
  such as `&orgId=1`. `Render` then fails, so `PostReceive` and `StatusChange` send nothing
  for such an alert with attachments on, where the plugin sends a payload with the Grafana
  field it parsed.
- Text.Lower: ASCII case mapping only. Python's full Unicode case mapping and its
  length-changing cases are not modelled.
- Text.Capitalize: ASCII case mapping only, as for `Text.Lower`.
- `None` in alert fields: `value`, `text`, `environment` and the entries of `service` are
  strings in the model. The code would render a `None` value in the JSON, or raise on
  `None.lower()`.
- The summary's format arguments that the default format does not use (`environment.upper()`,
  `','.join(service)` and the short id) are not computed.
- The regular expression engine in general. Only the one pattern used at line 145 is modelled,
  as a scan.
- Packaging (`setup.py`) and the plugin base class's registration are not part of this model.

/**
 * The `ServiceIntegration` plugin: `pre_receive` normalises an incoming alert and
 * attaches a Grafana dashboard link; `_slack_prepare_payload` turns an alert into
 * the Slack message; `post_receive` and `status_change` decide whether one is sent.
 */
module Plugin {
  import opened Wrappers
  import opened Text
  import opened Alerts
  import opened Tags
  import opened Links
  import opened Directive

  /** The plugin's settings, as read from the server configuration and the environment. */
  datatype Config = Config(
    alertSeverityMap: map<string, string>,    // ASKAP_ALERT_SEVERITY_MAP
    grafanaUrl: string,                       // GRAFANA_URL
    slackAttachments: bool,                   // SLACK_ATTACHMENTS
    slackChannel: string,                     // SLACK_CHANNEL
    slackChannelEnvMap: map<string, string>,  // SLACK_CHANNEL_ENV_MAP
    slackServiceChannels: bool,               // SLACK_SERVICE_CHANNELS
    alertaUsername: string,                   // ALERTA_USERNAME
    sendOnAck: bool,                          // SLACK_SEND_ON_ACK
    slackSeverityMap: map<string, string>,    // SLACK_SEVERITY_MAP
    iconEmoji: string,                        // ICON_EMOJI
    dashboardUrl: string)                     // DASHBOARD_URL

  /** The attachment colour of each severity before the user's map is applied. */
  const DefaultColours: map<string, string> := map[
    "security" := "#000000",
    "critical" := "#FF0000",
    "major" := "#FFA500",
    "minor" := "#FFFF00",
    "warning" := "#1E90FF",
    "informational" := "#808080",
    "debug" := "#808080",
    "trace" := "#808080",
    "ok" := "#00CC00"]

  /** The colour of a severity that has none. */
  const Green: string := "#00CC00"

  const SlackIcons: map<string, string> := map[
    "OK" := ":ok_hand:",
    "MINOR" := ":bomb:",
    "MAJOR" := ":boom:"]

  const UnknownIcon: string := ":question:"

  /** The attribute holding the dashboard link, and the one Grafana sends it in. */
  const DashboardKey: string := "Grafana Dashboard"
  const RuleUrlKey: string := "ruleUrl"

  // ---------------------------------------------------------------- pre_receive

  /** A severity after `ASKAP_ALERT_SEVERITY_MAP`. */
  function MapSeverity(m: map<string, string>, severity: string): string
  {
    if severity in m then m[severity] else severity
  }

  /** The dashboard name of an event: its spaces turned into '-'. */
  function DashboardName(event: string): string
  {
    ReplaceChar(event, ' ', '-')
  }

  /** The dashboard URL for a kapacitor alert: `<grafana>/d/<name>/<lower name><params>`. */
  function KapacitorHref(grafanaUrl: string, event: string, params: string): string
  {
    var name := DashboardName(event);
    grafanaUrl + "/d/" + name + "/" + Lower(name) + params
  }

  /** The kapacitor branch: an anchor to the dashboard, or the error of a malformed tag. */
  function LinkDashboard(cfg: Config, a: AlertData): Result<AlertData, Error>
  {
    match UrlParams(a.tags)
    case Err(e) => Err(e)
    case Ok(params) =>
      var link := Anchor(KapacitorHref(cfg.grafanaUrl, a.event, params), DashboardName(a.event));
      Ok(a.(attributes := a.attributes[DashboardKey := link]))
  }

  /**
   * The attributes with `ruleUrl` moved to the dashboard attribute: that one holds
   * the URL, `ruleUrl` is gone, and every other attribute stays as it was.
   */
  function MoveRuleUrl(attrs: map<string, string>): (r: map<string, string>)
    requires RuleUrlKey in attrs
    ensures DashboardKey in r && r[DashboardKey] == attrs[RuleUrlKey]
    ensures RuleUrlKey !in r
    ensures forall k :: k != DashboardKey && k != RuleUrlKey ==>
      (k in r <==> k in attrs) && (k in attrs ==> r[k] == attrs[k])
  {
    assert |DashboardKey| != |RuleUrlKey|;
    attrs[DashboardKey := attrs[RuleUrlKey]] - {RuleUrlKey}
  }

  /** The Grafana branch: `ruleUrl` moved to the dashboard attribute, the service from the text. */
  function MigrateRuleUrl(a: AlertData): AlertData
    requires RuleUrlKey in a.attributes
  {
    var attrs := MoveRuleUrl(a.attributes);
    match ServiceDirective(a.text)
    case Some(service) => a.(attributes := attrs, service := [service])
    case None => a.(attributes := attrs)
  }

  /**
   * `pre_receive` on the alert's fields: the mapped severity; for a kapacitor
   * alert, an anchor to its dashboard, or the error of a malformed tag; for a
   * Grafana alert with a `ruleUrl`, that URL moved to the dashboard attribute and
   * the service taken from the text's directive, if it has one.
   */
  function Enrich(cfg: Config, a: AlertData): Result<AlertData, Error>
  {
    var mapped := a.(severity := MapSeverity(cfg.alertSeverityMap, a.severity));
    if mapped.origin == "kapacitor" then LinkDashboard(cfg, mapped)
    else if mapped.origin == "Grafana" && RuleUrlKey in mapped.attributes then Ok(MigrateRuleUrl(mapped))
    else Ok(mapped)
  }

  /**
   * `pre_receive` fails only on a kapacitor alert with a tag holding two or more
   * '='. Otherwise it maps the severity and changes nothing but the severity, the
   * attributes and the service; and nothing but the severity unless the alert
   * comes from kapacitor, or from Grafana with a `ruleUrl`.
   */
  lemma EnrichKeeps(cfg: Config, a: AlertData)
    ensures Enrich(cfg, a).Err? <==> a.origin == "kapacitor" && UrlParams(a.tags).Err?
    ensures Enrich(cfg, a).Err? ==> Enrich(cfg, a).error == UrlParams(a.tags).error
    ensures Enrich(cfg, a).Ok? ==>
      var d := Enrich(cfg, a).value;
      && d.severity == (if a.severity in cfg.alertSeverityMap then cfg.alertSeverityMap[a.severity] else a.severity)
      && d.(severity := a.severity, attributes := a.attributes, service := a.service) == a
      && (a.origin != "kapacitor" && !(a.origin == "Grafana" && RuleUrlKey in a.attributes)
          ==> d.attributes == a.attributes && d.service == a.service)
  {
  }

  /**
   * A kapacitor alert whose tags all parse: only the severity is mapped and the
   * dashboard attribute set to an anchor to its dashboard; the service and every
   * other attribute stay.
   */
  lemma EnrichKapacitor(cfg: Config, a: AlertData)
    requires a.origin == "kapacitor" && UrlParams(a.tags).Ok?
    ensures Enrich(cfg, a) == Ok(a.(
      severity := MapSeverity(cfg.alertSeverityMap, a.severity),
      attributes := a.attributes[DashboardKey :=
        Anchor(KapacitorHref(cfg.grafanaUrl, a.event, UrlParams(a.tags).value), DashboardName(a.event))]))
    ensures Enrich(cfg, a).value.service == a.service
  {
  }

  /**
   * A Grafana alert with a `ruleUrl`: the URL moves to the dashboard attribute,
   * `ruleUrl` is gone, every other attribute stays, and the service becomes the
   * text's directive when there is one.
   */
  lemma GrafanaMigration(cfg: Config, a: AlertData)
    requires a.origin == "Grafana" && RuleUrlKey in a.attributes
    ensures Enrich(cfg, a).Ok?
    ensures var d := Enrich(cfg, a).value;
      && DashboardKey in d.attributes && d.attributes[DashboardKey] == a.attributes[RuleUrlKey]
      && RuleUrlKey !in d.attributes
      && (forall k :: k != DashboardKey && k != RuleUrlKey ==>
            (k in d.attributes <==> k in a.attributes)
            && (k in a.attributes ==> d.attributes[k] == a.attributes[k]))
      && d.service == (if ServiceDirective(a.text).Some? then [ServiceDirective(a.text).value] else a.service)
  {
    EnrichGrafana(cfg, a);
  }

  /** A Grafana alert with a `ruleUrl` takes the Grafana branch once its severity is mapped. */
  lemma EnrichGrafana(cfg: Config, a: AlertData)
    requires a.origin == "Grafana" && RuleUrlKey in a.attributes
    ensures Enrich(cfg, a) == Ok(MigrateRuleUrl(a.(severity := MapSeverity(cfg.alertSeverityMap, a.severity))))
  {
  }

  /** A Grafana alert without a `ruleUrl` keeps its attributes and its service. */
  lemma GrafanaWithoutRuleUrl(cfg: Config, a: AlertData)
    requires a.origin == "Grafana" && RuleUrlKey !in a.attributes
    ensures Enrich(cfg, a) == Ok(a.(severity := MapSeverity(cfg.alertSeverityMap, a.severity)))
  {
  }

  /**
   * On one line of text, the service of a Grafana alert becomes everything after
   * the last `service =` and the spaces that follow it.
   */
  lemma GrafanaSingleLineService(cfg: Config, a: AlertData, p: nat)
    requires a.origin == "Grafana" && RuleUrlKey in a.attributes
    requires '\n' !in a.text
    requires p <= |a.text| && MatchEnd(a.text, p).Some?
    requires forall j :: p < j <= |a.text| ==> MatchEnd(a.text, j).None?
    ensures Enrich(cfg, a).Ok?
    ensures Enrich(cfg, a).value.service == [a.text[MatchEnd(a.text, p).value..]]
  {
    EnrichGrafana(cfg, a);
    SingleLineDirective(a.text, p);
  }

  /** A query parameter made of safe text is a safe href, after '?' or '&'. */
  lemma ParamSafe(sep: string, p: (string, string))
    requires sep == "?" || sep == "&"
    requires LabelSafe(p.0) && LabelSafe(p.1)
    ensures HrefSafe(sep + VarParam(p))
  {
    var s := sep + VarParam(p);
    var n := |p.0|;
    assert s == sep + "var-" + p.0 + "=" + p.1;
    forall i | 0 <= i < |s|
      ensures s[i] != '<' && s[i] != '>' && s[i] != '"' && (s[i] == '&' ==> i == 0)
    {
      if 1 <= i < 5 {
        assert s[i] == "var-"[i - 1];
      } else if 5 <= i < 5 + n {
        assert s[i] == p.0[i - 5];
      } else if 6 + n <= i {
        assert s[i] == p.1[i - 6 - n];
      }
    }
    assert s[1..5] == "var-";
    assert VarAmpersands(s);
  }

  /** The query string of safe pairs is a safe href. */
  lemma {:induction false} QueryStringSafe(ps: seq<(string, string)>)
    requires forall j :: 0 <= j < |ps| ==> LabelSafe(ps[j].0) && LabelSafe(ps[j].1)
    ensures HrefSafe(QueryString(ps))
    decreases |ps|
  {
    if ps != [] {
      var init, last := ps[..|ps| - 1], ps[|ps| - 1];
      var sep := if |ps| == 1 then "?" else "&";
      forall j | 0 <= j < |init|
        ensures LabelSafe(init[j].0) && LabelSafe(init[j].1)
      {
        assert init[j] == ps[j];
      }
      QueryStringSafe(init);
      ParamSafe(sep, last);
      var head, tail := QueryString(init), sep + VarParam(last);
      HrefSafeConcat(head, tail);
      assert QueryString(ps) == head + tail;
    }
  }

  /** The pairs of safe tags are made of safe text. */
  lemma PairsSafe(tags: seq<string>)
    requires forall t :: t in tags ==> LabelSafe(t)
    ensures forall j :: 0 <= j < |Pairs(tags)| ==> LabelSafe(Pairs(tags)[j].0) && LabelSafe(Pairs(tags)[j].1)
  {
    PairsFromTags(tags);
    forall j | 0 <= j < |Pairs(tags)|
      ensures LabelSafe(Pairs(tags)[j].0) && LabelSafe(Pairs(tags)[j].1)
    {
      var p := Pairs(tags)[j];
      var t := p.0 + "=" + p.1;
      assert LabelSafe(t);
      assert forall i :: 0 <= i < |p.0| ==> t[i] == p.0[i];
      assert forall i :: 0 <= i < |p.1| ==> t[|p.0| + 1 + i] == p.1[i];
    }
  }

  /** The dashboard URL built from safe text is a safe href. */
  lemma KapacitorHrefSafe(grafanaUrl: string, event: string, params: string)
    requires LabelSafe(grafanaUrl) && LabelSafe(event) && HrefSafe(params)
    ensures HrefSafe(KapacitorHref(grafanaUrl, event, params))
    ensures LabelSafe(DashboardName(event))
  {
    var name := DashboardName(event);
    assert LabelSafe(Lower(name));
    LabelIsHref(grafanaUrl);
    LabelIsHref("/d/");
    LabelIsHref(name);
    LabelIsHref("/");
    LabelIsHref(Lower(name));
    HrefSafeConcat(grafanaUrl, "/d/");
    HrefSafeConcat(grafanaUrl + "/d/", name);
    HrefSafeConcat(grafanaUrl + "/d/" + name, "/");
    HrefSafeConcat(grafanaUrl + "/d/" + name + "/", Lower(name));
    HrefSafeConcat(grafanaUrl + "/d/" + name + "/" + Lower(name), params);
  }

  /**
   * A kapacitor alert whose Grafana URL, event and tags hold no '<', '>', '"' or
   * '&', and whose tags are well formed: `pre_receive` stores an anchor to the
   * dashboard URL that `LinkParser` reads back as that URL and the dashboard name.
   */
  lemma KapacitorLinkReadsBack(cfg: Config, a: AlertData)
    requires a.origin == "kapacitor" && UrlParams(a.tags).Ok?
    requires LabelSafe(cfg.grafanaUrl) && LabelSafe(a.event)
    requires forall t :: t in a.tags ==> LabelSafe(t)
    ensures Enrich(cfg, a).Ok?
    ensures var d := Enrich(cfg, a).value;
      && DashboardKey in d.attributes
      && ParseLink(d.attributes[DashboardKey]) ==
           Some(Link(Some(KapacitorHref(cfg.grafanaUrl, a.event, UrlParams(a.tags).value)),
                     if a.event == "" then None else Some(DashboardName(a.event))))
  {
    PairsSafe(a.tags);
    QueryStringSafe(Pairs(a.tags));
    var params := UrlParams(a.tags).value;
    KapacitorHrefSafe(cfg.grafanaUrl, a.event, params);
    AnchorRoundTrip(KapacitorHref(cfg.grafanaUrl, a.event, params), DashboardName(a.event));
  }

  // ------------------------------------------------------ _slack_prepare_payload

  datatype Field = Field(title: string, value: string, short: bool)

  datatype Attachment = Attachment(fallback: string, color: string, fields: seq<Field>)

  /** The Slack message; `attachment` is present when attachments are switched on. */
  datatype Payload = Payload(
    username: string,
    channel: string,
    text: string,
    iconEmoji: string,
    attachment: Option<Attachment>)

  /** The colour table `__init__` builds: the defaults updated with `SLACK_SEVERITY_MAP`. */
  function Severities(cfg: Config): map<string, string>
  {
    DefaultColours + cfg.slackSeverityMap
  }

  /** The attachment colour of a severity, green when the table has none. */
  function Colour(severities: map<string, string>, severity: string): string
  {
    if severity in severities then severities[severity] else Green
  }

  /**
   * A severity's colour is the user's when the user gave one, else the default
   * one, else green.
   */
  lemma ColourChoice(cfg: Config, severity: string)
    ensures Colour(Severities(cfg), severity) ==
      if severity in cfg.slackSeverityMap then cfg.slackSeverityMap[severity]
      else if severity in DefaultColours then DefaultColours[severity]
      else Green
  {
  }

  /**
   * Updating the table with the user's map a second time changes nothing: every
   * instance built over the shared default table sees the same colours.
   */
  lemma SeveritiesUpdateIdempotent(cfg: Config)
    ensures Severities(cfg) + cfg.slackSeverityMap == Severities(cfg)
  {
  }

  /** A service name as a Slack channel: lower case, with '.' and ' ' turned into '_'. */
  function ChannelName(service: string): (r: string)
    ensures |r| == |service|
    ensures forall i :: 0 <= i < |r| ==>
      r[i] == (if service[i] == '.' || service[i] == ' ' then '_' else LowerChar(service[i]))
    ensures forall i :: 0 <= i < |r| ==> !IsUpper(r[i]) && r[i] != '.' && r[i] != ' '
  {
    ReplaceChar(ReplaceChar(Lower(service), '.', '_'), ' ', '_')
  }

  /**
   * The channel: from the first service when service channels are on (an alert
   * without a service then fails), else the environment's channel, else the
   * default channel.
   */
  function Channel(cfg: Config, a: AlertData): (r: Result<string, Error>)
    ensures r.Err? <==> cfg.slackServiceChannels && a.service == []
    ensures r.Err? ==> r.error == NoService
    ensures cfg.slackServiceChannels && a.service != [] ==> r == Ok("#" + ChannelName(a.service[0]))
    ensures !cfg.slackServiceChannels ==>
      r == Ok(if a.environment in cfg.slackChannelEnvMap then cfg.slackChannelEnvMap[a.environment] else cfg.slackChannel)
  {
    if cfg.slackServiceChannels then
      if a.service == [] then Err(NoService) else Ok("#" + ChannelName(a.service[0]))
    else if a.environment in cfg.slackChannelEnvMap then Ok(cfg.slackChannelEnvMap[a.environment])
    else Ok(cfg.slackChannel)
  }

  /** The Slack emoji of a severity, after the user's severity map. */
  function Icon(severity: string): string
  {
    if severity in SlackIcons then SlackIcons[severity] else UnknownIcon
  }

  /** `status if status else alert.status`: an empty override counts as none. */
  function StatusShown(a: AlertData, status: Option<string>): string
  {
    if status.Some? && status.value != "" then status.value else a.status
  }

  /** `text or alert.text`. */
  function TextShown(a: AlertData, text: Option<string>): string
  {
    if text.Some? && text.value != "" then text.value else a.text
  }

  /** The default summary line, with the status capitalised and a link to the alert. */
  function Summary(cfg: Config, a: AlertData, status: Option<string>): string
  {
    Icon(a.severity) + " *[" + Capitalize(StatusShown(a, status)) + "] " + a.severity + "* - <"
    + cfg.dashboardUrl + "/#/alert/" + a.id + "|" + a.event + " on " + a.resource + ">"
  }

  /** Only the three upper-case severities have an emoji of their own. */
  lemma IconChoice(severity: string)
    ensures severity == "OK" ==> Icon(severity) == ":ok_hand:"
    ensures severity == "MINOR" ==> Icon(severity) == ":bomb:"
    ensures severity == "MAJOR" ==> Icon(severity) == ":boom:"
    ensures severity != "OK" && severity != "MINOR" && severity != "MAJOR" ==> Icon(severity) == ":question:"
  {
  }

  /**
   * The summary opens with the severity's emoji, then ` *[`, the capitalised
   * status override if it is non-empty or else the alert's status, then `]`; it
   * closes the link to the alert with `>`.
   */
  lemma SummaryStatus(cfg: Config, a: AlertData, status: Option<string>)
    ensures var s := Summary(cfg, a, status);
      var n := |Icon(a.severity)|;
      var st := if status.Some? && status.value != "" then status.value else a.status;
      && n + 3 + |st| < |s|
      && s[..n] == Icon(a.severity)
      && s[n..n + 3] == " *["
      && s[n + 3..n + 3 + |st|] == Capitalize(st)
      && s[n + 3 + |st|] == ']'
      && s[|s| - 1] == '>'
  {
    var icon := Icon(a.severity);
    var c := Capitalize(StatusShown(a, status));
    var rest := "] " + a.severity + "* - <" + cfg.dashboardUrl + "/#/alert/" + a.id + "|" + a.event + " on " + a.resource + ">";
    var s := Summary(cfg, a, status);
    assert s == icon + " *[" + c + rest;
  }

  /** Python's `str()` of an optional string. */
  function Show(s: Option<string>): string
  {
    if s.Some? then s.value else "None"
  }

  /** The Grafana field for what `LinkParser` read: `<href|title>`. */
  function GrafanaField(l: Link): Field
  {
    Field("Grafana", "<" + Show(l.href) + "|" + Show(l.title) + ">", true)
  }

  /** The Grafana field when the alert has a dashboard attribute. */
  function DashboardField(attributes: map<string, string>): Result<seq<Field>, Error>
  {
    if DashboardKey !in attributes then Ok([])
    else match ParseLink(attributes[DashboardKey])
      case None => Err(UnparsedLink(attributes[DashboardKey]))
      case Some(l) => Ok([GrafanaField(l)])
  }

  /** The four fields every attachment has. */
  function FixedFields(a: AlertData, text: Option<string>): seq<Field>
  {
    [Field("Origin", a.origin, true),
     Field("Subsystem", Join(a.service, ", "), true),
     Field("Value", a.value, true),
     Field("Text", TextShown(a, text), true)]
  }

  /**
   * The fixed fields are Origin, Subsystem (the services joined by ", "), Value
   * and Text, all short; Text shows the text override when it is non-empty and
   * the alert's text otherwise.
   */
  lemma FixedFieldsText(a: AlertData, text: Option<string>)
    ensures var fs := FixedFields(a, text);
      && |fs| == 4
      && fs[0].title == "Origin" && fs[0].value == a.origin
      && fs[1].title == "Subsystem" && fs[1].value == Join(a.service, ", ")
      && fs[2].title == "Value" && fs[2].value == a.value
      && fs[3].title == "Text"
      && (text.Some? && text.value != "" ==> fs[3].value == text.value)
      && (text.None? || text.value == "" ==> fs[3].value == a.text)
      && (forall j :: 0 <= j < 4 ==> fs[j].short)
  {
  }

  /** One field per tag pair, titled with the key. */
  function TagFields(ps: seq<(string, string)>): seq<Field>
  {
    if ps == [] then []
    else TagFields(ps[..|ps| - 1]) + [Field(ps[|ps| - 1].0, ps[|ps| - 1].1, true)]
  }

  /** The attachment's fields, or the error raised while building them. */
  function Fields(a: AlertData, text: Option<string>): Result<seq<Field>, Error>
  {
    match DashboardField(a.attributes)
    case Err(e) => Err(e)
    case Ok(grafana) =>
      match FirstMalformed(a.tags)
      case Some(i) => Err(TagUnpack(a.tags[i]))
      case None => Ok(grafana + FixedFields(a, text) + TagFields(Pairs(a.tags)))
  }

  /** `_slack_prepare_payload` without templates: the payload, or the error raised. */
  function Render(cfg: Config, a: AlertData, status: Option<string>, text: Option<string>): Result<Payload, Error>
  {
    match Channel(cfg, a)
    case Err(e) => Err(e)
    case Ok(channel) =>
      var summary := Summary(cfg, a, status);
      if !cfg.slackAttachments then
        Ok(Payload(cfg.alertaUsername, channel, summary, cfg.iconEmoji, None))
      else
        match Fields(a, text)
        case Err(e) => Err(e)
        case Ok(fields) =>
          Ok(Payload(cfg.alertaUsername, channel, summary, cfg.iconEmoji,
                     Some(Attachment(summary, Colour(Severities(cfg), a.severity), fields))))
  }

  /** Every field of a list of tag pairs is one pair, in order. */
  lemma {:induction false} TagFieldsPairs(ps: seq<(string, string)>)
    ensures |TagFields(ps)| == |ps|
    ensures forall j :: 0 <= j < |ps| ==> TagFields(ps)[j] == Field(ps[j].0, ps[j].1, true)
    decreases |ps|
  {
    if ps != [] {
      TagFieldsPairs(ps[..|ps| - 1]);
    }
  }

  /**
   * The fields, when they can be built: the Grafana field if there is a dashboard
   * attribute, the four fixed ones, then one field per tag holding '=', each of
   * them the `key=value` of a tag, all short.
   */
  lemma FieldsLayout(a: AlertData, text: Option<string>)
    requires Fields(a, text).Ok?
    ensures var fs := Fields(a, text).value;
      var g := if DashboardKey in a.attributes then 1 else 0;
      && |fs| == g + 4 + CountWithEquals(a.tags)
      && (g == 1 ==> fs[0].title == "Grafana")
      && fs[g..g + 4] == FixedFields(a, text)
      && fs[g + 4..] == TagFields(Pairs(a.tags))
      && (forall j :: g + 4 <= j < |fs| ==> fs[j].title + "=" + fs[j].value in a.tags)
      && (forall j :: 0 <= j < |fs| ==> fs[j].short)
  {
    FieldsParts(a, text);
    PairsLength(a.tags);
    var grafana := DashboardField(a.attributes).value;
    FieldsOfTags(Fields(a, text).value, grafana, FixedFields(a, text), a.tags);
    assert Fields(a, text).value[|grafana| + 4..] == TagFields(Pairs(a.tags));
  }

  /** `FieldsOfParts` for the pairs of some tags. */
  lemma FieldsOfTags(fs: seq<Field>, grafana: seq<Field>, fixed: seq<Field>, tags: seq<string>)
    requires fs == grafana + fixed + TagFields(Pairs(tags))
    requires |fixed| == 4
    requires forall j :: 0 <= j < |grafana| ==> grafana[j].short
    requires forall j :: 0 <= j < 4 ==> fixed[j].short
    ensures |fs| == |grafana| + 4 + |Pairs(tags)|
    ensures fs[|grafana|..|grafana| + 4] == fixed
    ensures forall j :: |grafana| + 4 <= j < |fs| ==> fs[j].title + "=" + fs[j].value in tags
    ensures forall j :: 0 <= j < |fs| ==> fs[j].short
  {
    var ps := Pairs(tags);
    PairsFromTags(tags);
    FieldsOfParts(grafana, fixed, ps, tags);
    var parts := grafana + fixed + TagFields(ps);
    forall j | 0 <= j < |fs|
      ensures fs[j].short
      ensures j >= |grafana| + 4 ==> fs[j].title + "=" + fs[j].value in tags
    {
      assert fs[j] == parts[j];
    }
  }

  /** The layout of the Grafana, fixed and tag fields put together. */
  lemma FieldsOfParts(grafana: seq<Field>, fixed: seq<Field>, ps: seq<(string, string)>, tags: seq<string>)
    requires |fixed| == 4
    requires forall j :: 0 <= j < |grafana| ==> grafana[j].short
    requires forall j :: 0 <= j < 4 ==> fixed[j].short
    requires forall j :: 0 <= j < |ps| ==> ps[j].0 + "=" + ps[j].1 in tags
    ensures var fs := grafana + fixed + TagFields(ps);
      var g := |grafana|;
      && |fs| == g + 4 + |ps|
      && fs[g..g + 4] == fixed
      && (forall j :: g + 4 <= j < |fs| ==> fs[j].title + "=" + fs[j].value in tags)
      && (forall j :: 0 <= j < |fs| ==> fs[j].short)
  {
    var tagFields := TagFields(ps);
    var fs := grafana + fixed + tagFields;
    var g := |grafana|;
    TagFieldsPairs(ps);
    assert fs[g..g + 4] == fixed;
    forall j | 0 <= j < |fs|
      ensures fs[j].short
      ensures j >= g + 4 ==> fs[j].title + "=" + fs[j].value in tags
    {
      if j >= g + 4 {
        assert fs[j] == tagFields[j - g - 4];
      } else if j >= g {
        assert fs[j] == fixed[j - g];
      } else {
        assert fs[j] == grafana[j];
      }
    }
  }

  /** Built fields are the Grafana field, if any, the fixed ones and the tag fields. */
  lemma FieldsParts(a: AlertData, text: Option<string>)
    requires Fields(a, text).Ok?
    ensures DashboardField(a.attributes).Ok? && FirstMalformed(a.tags).None?
    ensures |DashboardField(a.attributes).value| == if DashboardKey in a.attributes then 1 else 0
    ensures DashboardField(a.attributes).value == [] || DashboardField(a.attributes).value[0].title == "Grafana"
    ensures Fields(a, text).value ==
      DashboardField(a.attributes).value + FixedFields(a, text) + TagFields(Pairs(a.tags))
  {
  }

  /**
   * Preparing the payload fails exactly when service channels are on and the
   * alert has no service, or attachments are on and the dashboard link cannot be
   * read or some tag holds two or more '='. With attachments off, tags are never
   * split.
   */
  lemma RenderErrIff(cfg: Config, a: AlertData, status: Option<string>, text: Option<string>)
    ensures Render(cfg, a, status, text).Err? <==>
      || (cfg.slackServiceChannels && a.service == [])
      || (cfg.slackAttachments
          && (DashboardField(a.attributes).Err? || exists t :: t in a.tags && Count(t, '=') >= 2))
  {
    UrlParamsErrIff(a.tags);
  }

  /**
   * A prepared payload carries the configured user name and icon, the summary as
   * its text and as the attachment's fallback, and the severity's colour.
   */
  lemma RenderPayload(cfg: Config, a: AlertData, status: Option<string>, text: Option<string>)
    requires Render(cfg, a, status, text).Ok?
    ensures var p := Render(cfg, a, status, text).value;
      && p.username == cfg.alertaUsername && p.iconEmoji == cfg.iconEmoji
      && p.channel == Channel(cfg, a).value
      && p.text == Summary(cfg, a, status)
      && (p.attachment.Some? <==> cfg.slackAttachments)
      && (p.attachment.Some? ==>
            p.attachment.value.fallback == p.text
            && p.attachment.value.color == Colour(Severities(cfg), a.severity)
            && p.attachment.value.fields == Fields(a, text).value)
  {
  }

  /**
   * Routing by the text's directive: once `pre_receive` has set the service of a
   * Grafana alert from its text, service channels send it to that service's
   * channel.
   */
  lemma GrafanaServiceChannel(cfg: Config, a: AlertData)
    requires a.origin == "Grafana" && RuleUrlKey in a.attributes
    requires cfg.slackServiceChannels && ServiceDirective(a.text).Some?
    ensures Enrich(cfg, a).Ok?
    ensures Channel(cfg, Enrich(cfg, a).value) == Ok("#" + ChannelName(ServiceDirective(a.text).value))
  {
    EnrichGrafana(cfg, a);
  }

  /**
   * The dashboard field of a kapacitor alert with safe text links the dashboard
   * URL under the dashboard's name.
   */
  lemma KapacitorDashboardField(cfg: Config, a: AlertData)
    requires a.origin == "kapacitor" && UrlParams(a.tags).Ok? && a.event != ""
    requires LabelSafe(cfg.grafanaUrl) && LabelSafe(a.event)
    requires forall t :: t in a.tags ==> LabelSafe(t)
    ensures Enrich(cfg, a).Ok?
    ensures DashboardField(Enrich(cfg, a).value.attributes) ==
      Ok([Field("Grafana", "<" + KapacitorHref(cfg.grafanaUrl, a.event, UrlParams(a.tags).value)
                           + "|" + DashboardName(a.event) + ">", true)])
  {
    KapacitorLinkReadsBack(cfg, a);
  }

  /**
   * The dashboard field of a Grafana alert whose `ruleUrl` is a bare URL: the
   * parser finds no href, so the field links to `None` under the URL's text.
   */
  lemma GrafanaPlainUrlField(cfg: Config, a: AlertData)
    requires a.origin == "Grafana" && RuleUrlKey in a.attributes
    requires a.attributes[RuleUrlKey] != ""
    requires '<' !in a.attributes[RuleUrlKey] && VarAmpersands(a.attributes[RuleUrlKey])
    requires !Withheld(a.attributes[RuleUrlKey])
    ensures Enrich(cfg, a).Ok?
    ensures DashboardField(Enrich(cfg, a).value.attributes) ==
      Ok([Field("Grafana", "<None|" + a.attributes[RuleUrlKey] + ">", true)])
  {
    var url := a.attributes[RuleUrlKey];
    GrafanaMigration(cfg, a);
    var attributes := Enrich(cfg, a).value.attributes;
    assert attributes[DashboardKey] == url;
    PlainTextHasNoHref(url);
    assert "<" + Show(None) + "|" + Show(Some(url)) + ">" == "<None|" + url + ">";
  }

  // ------------------------------------------------------------------ the plugin

  /** The plugin object: its settings and the colour table `__init__` builds. */
  class ServiceIntegration {
    const cfg: Config
    var severities: map<string, string>

    /** The colour table is the defaults updated with the user's map. */
    ghost predicate Valid()
      reads this
    {
      severities == Severities(cfg)
    }

    /** `__init__`: the default colour table, updated with `SLACK_SEVERITY_MAP`. */
    constructor (cfg: Config)
      ensures this.cfg == cfg && Valid()
    {
      this.cfg := cfg;
      severities := DefaultColours;
      severities := severities + cfg.slackSeverityMap;
    }

    /**
     * `pre_receive`: updates the alert as `Enrich` says. When a tag is malformed
     * it stops with that error, the severity already mapped and nothing else
     * changed.
     */
    method PreReceive(alert: Alert) returns (failure: Option<Error>)
      modifies alert
      ensures var before := old(alert.Snapshot());
        match Enrich(cfg, before)
        case Ok(after) => failure.None? && alert.Snapshot() == after
        case Err(e) =>
          failure == Some(e)
          && alert.Snapshot() == before.(severity := MapSeverity(cfg.alertSeverityMap, before.severity))
    {
      if alert.severity in cfg.alertSeverityMap {
        alert.severity := cfg.alertSeverityMap[alert.severity];
      }
      if alert.origin == "kapacitor" {
        failure := AddDashboardLink(alert);
      } else if alert.origin == "Grafana" && RuleUrlKey in alert.attributes {
        MoveGrafanaRule(alert);
        failure := None;
      } else {
        failure := None;
      }
    }

    /**
     * The Kapacitor branch of `pre_receive`: stores the link to the alert's
     * dashboard, or stops at a malformed tag and changes nothing.
     */
    method AddDashboardLink(alert: Alert) returns (failure: Option<Error>)
      modifies alert
      ensures match LinkDashboard(cfg, old(alert.Snapshot()))
        case Ok(after) => failure.None? && alert.Snapshot() == after
        case Err(e) => failure == Some(e) && alert.Snapshot() == old(alert.Snapshot())
    {
      var dashboard := ReplaceChar(alert.event, ' ', '-');
      var params := MakeUrlParams(alert.tags);
      if params.Err? {
        return Some(params.error);
      }
      var href := cfg.grafanaUrl + "/d/" + dashboard + "/" + Lower(dashboard) + params.value;
      alert.attributes := alert.attributes[DashboardKey := Anchor(href, dashboard)];
      return None;
    }

    /**
     * The Grafana branch of `pre_receive`: moves `ruleUrl` to the dashboard
     * attribute and takes the service from the text's directive, if it has one.
     */
    method MoveGrafanaRule(alert: Alert)
      requires RuleUrlKey in alert.attributes
      modifies alert
      ensures alert.Snapshot() == MigrateRuleUrl(old(alert.Snapshot()))
    {
      alert.attributes := alert.attributes[DashboardKey := alert.attributes[RuleUrlKey]];
      alert.attributes := alert.attributes - {RuleUrlKey};
      var directive := ServiceDirective(alert.text);
      if directive.Some? {
        alert.service := [directive.value];
      }
    }

    /**
     * `_slack_prepare_payload` without templates: the colour, the channel, the
     * summary and, with attachments on, the fields, read off the alert.
     */
    method PreparePayload(alert: Alert, status: Option<string>, text: Option<string>)
      returns (r: Result<Payload, Error>)
      requires Valid()
      ensures r == Render(cfg, alert.Snapshot(), status, text)
    {
      var color := if alert.severity in severities then severities[alert.severity] else Green;
      var channel := Channel(cfg, alert.Snapshot());
      if channel.Err? {
        return Err(channel.error);
      }
      var summary := Summary(cfg, alert.Snapshot(), status);
      if !cfg.slackAttachments {
        return Ok(Payload(cfg.alertaUsername, channel.value, summary, cfg.iconEmoji, None));
      }
      var grafana := ReadDashboard(alert);
      if grafana.Err? {
        return Err(grafana.error);
      }
      var fields := CollectTagFields(alert.tags, grafana.value + FixedFields(alert.Snapshot(), text));
      if fields.Err? {
        return Err(fields.error);
      }
      return Ok(Payload(cfg.alertaUsername, channel.value, summary, cfg.iconEmoji,
                        Some(Attachment(summary, color, fields.value))));
    }

    /**
     * The Grafana field of `_slack_prepare_payload`: a fresh `LinkParser` fed the
     * dashboard attribute, when the alert has one.
     */
    method ReadDashboard(alert: Alert) returns (r: Result<seq<Field>, Error>)
      ensures r == DashboardField(alert.attributes)
    {
      if DashboardKey !in alert.attributes {
        return Ok([]);
      }
      var parser := new LinkParser();
      var covered := parser.Feed(alert.attributes[DashboardKey]);
      if !covered {
        return Err(UnparsedLink(alert.attributes[DashboardKey]));
      }
      return Ok([Field("Grafana", "<" + Show(parser.href) + "|" + Show(parser.title) + ">", true)]);
    }

    /** `post_receive`: a repeated alert sends nothing; otherwise the prepared payload, if any. */
    method PostReceive(alert: Alert) returns (sent: Option<Payload>)
      requires Valid()
      ensures sent.Some? <==> !alert.repeat && Render(cfg, alert.Snapshot(), None, None).Ok?
      ensures sent.Some? ==> sent.value == Render(cfg, alert.Snapshot(), None, None).value
    {
      if alert.repeat {
        return None;
      }
      var r := PreparePayload(alert, None, None);
      if r.Err? {
        return None;
      }
      return Some(r.value);
    }

    /**
     * `status_change`: only an `ack` or `assign` sends, and only with
     * `SLACK_SEND_ON_ACK` on; the new status and text override the alert's.
     */
    method StatusChange(alert: Alert, status: string, text: Option<string>) returns (sent: Option<Payload>)
      requires Valid()
      ensures sent.Some? <==>
        cfg.sendOnAck && (status == "ack" || status == "assign")
        && Render(cfg, alert.Snapshot(), Some(status), text).Ok?
      ensures sent.Some? ==> sent.value == Render(cfg, alert.Snapshot(), Some(status), text).value
    {
      if !cfg.sendOnAck || !(status == "ack" || status == "assign") {
        return None;
      }
      var r := PreparePayload(alert, Some(status), text);
      if r.Err? {
        return None;
      }
      return Some(r.value);
    }
  }

  /**
   * The tag loop of `_slack_prepare_payload`: appends a field per `key=value`
   * tag to `head`, skipping tags without '=', and stops at the first malformed
   * tag.
   */
  method CollectTagFields(tags: seq<string>, head: seq<Field>) returns (r: Result<seq<Field>, Error>)
    ensures match FirstMalformed(tags)
      case Some(i) => r == Err(TagUnpack(tags[i]))
      case None => r == Ok(head + TagFields(Pairs(tags)))
  {
    var fields := head;
    var i := 0;
    while i < |tags|
      invariant 0 <= i <= |tags|
      invariant FirstMalformed(tags[..i]).None?
      invariant fields == head + TagFields(Pairs(tags[..i]))
    {
      var tag := tags[i];
      if '=' in tag {
        var kv := ParseTag(tag);  // k, v = tag.split('=')
        if kv.Malformed? {
          FirstMalformedAt(tags, i);
          return Err(TagUnpack(tag));
        }
        TagFieldsSnoc(Pairs(tags[..i]), (kv.key, kv.val));
        fields := fields + [Field(kv.key, kv.val, true)];
      }
      PairsStep(tags, i);
      WellFormedStep(tags, i);
      i := i + 1;
    }
    assert tags[..i] == tags;
    return Ok(fields);
  }

  /** One more pair adds its field at the end. */
  lemma TagFieldsSnoc(ps: seq<(string, string)>, p: (string, string))
    ensures TagFields(ps + [p]) == TagFields(ps) + [Field(p.0, p.1, true)]
  {
    assert (ps + [p])[..|ps|] == ps;
  }
}

/** The model adapter: `queryModel` picks one of three modes from the
    configuration (a proxy URL, a Gemini API key, or neither), turns remote
    failures into a reply string, and answers offline with canned replies.
    The network calls are represented by what they can come back with. */
module Model {
  import opened Wrappers
  import opened Text

  /** The adapter's configuration: `VITE_GEMINI_PROXY_URL` and `VITE_GEMINI_API_KEY`. */
  datatype Config = Config(proxyUrl: Option<string>, apiKey: Option<string>)

  /** What the proxy request came back with: an error thrown on the way
      (network failure, unreadable JSON) or an HTTP response whose body
      carries an optional `reply` field; `json` is the body re-serialised. */
  datatype ProxyOutcome =
    | ProxyThrew(error: string)
    | ProxyResponse(status: nat, reply: Option<string>, json: string)

  /** What the Gemini request came back with: an error thrown on the way, or an
      HTTP response with its body text and the `text` of each part of the first
      candidate (`None` when the candidate, its content or its parts are missing). */
  datatype GeminiOutcome =
    | GeminiThrew(error: string)
    | GeminiResponse(status: nat, bodyText: string, parts: Option<seq<Option<string>>>)

  /** The three modes, in order of preference. */
  datatype Mode = ViaProxy | Direct | Offline

  /** A configuration value counts only when it is a non-empty string (JavaScript truthiness). */
  predicate Configured(v: Option<string>) {
    v.Some? && v.value != ""
  }

  /** `res.ok`: the status is in the 2xx range. */
  predicate HttpOk(status: nat) {
    200 <= status < 300
  }

  const HelpReply := "Commandes: `ajouter <titre>` ; `avancement` ; `liste` ; `aide`"
  const AddHint := "Je peux enregistrer cette tâche pour toi. Exemple: ajouter Préparer examen"
  const OfflineProgress := "Je ne suis pas connecté à un modèle externe — ton avancement est calculé localement."
  const OfflineEchoPrefix := "Je suis en mode hors-ligne. Tu as dit: \""
  const NoKeyError := "Aucune clé Gemini configurée"
  const EmptyReply := "Réponse vide du modèle."
  const ConnectionErrorPrefix := "Erreur de connexion au modèle: "

  /** `callProxy`: throws on a non-2xx status, returns a non-empty `reply`
      field when there is one and the serialised body otherwise. */
  function CallProxy(out: ProxyOutcome): (r: Result<string>)
    ensures out.ProxyThrew? ==> r == Err(out.error)
    ensures out.ProxyResponse? && !HttpOk(out.status) ==> r == Err("Proxy error: " + NatToString(out.status))
    ensures out.ProxyResponse? && HttpOk(out.status) ==> r.Ok?
    ensures r.Ok? && Configured(out.reply) ==> r.value == out.reply.value
  {
    match out
    case ProxyThrew(e) => Err(e)
    case ProxyResponse(status, reply, json) =>
      if !HttpOk(status) then Err("Proxy error: " + NatToString(status))
      else if Configured(reply) then Ok(reply.value)
      else Ok(json)
  }

  /** `parts.map(p => p.text)`: a part without text gives `undefined`, which
      `join` renders as the empty string. */
  function PartTexts(parts: seq<Option<string>>): (texts: seq<string>)
    ensures |texts| == |parts|
    ensures forall i :: 0 <= i < |parts| ==> texts[i] == if parts[i].Some? then parts[i].value else ""
  {
    seq(|parts|, i requires 0 <= i < |parts| => if parts[i].Some? then parts[i].value else "")
  }

  /** The parts' texts joined with no separator. */
  function JoinParts(parts: seq<Option<string>>): (r: string)
    ensures r == [] <==> forall i :: 0 <= i < |parts| ==> parts[i] == None || parts[i] == Some([])
  {
    JoinEmpty(PartTexts(parts));
    Join(PartTexts(parts), "")
  }

  /** `candidates?.[0]?.content?.parts?.map(p => p.text).join('').trim()`, with
      the empty string standing for `undefined`. */
  function FirstCandidateText(parts: Option<seq<Option<string>>>): (r: string)
    ensures r == [] <==> parts.None? || AllSpace(JoinParts(parts.value))
    ensures parts.Some? ==> Trim(JoinParts(parts.value)) == r
    ensures r != [] ==> !IsSpace(r[0]) && !IsSpace(r[|r| - 1])
  {
    if parts.None? then "" else Trim(JoinParts(parts.value))
  }

  /** `callGemini`: throws without a key or on a non-2xx status, and otherwise
      returns the trimmed text of the first candidate, or a fixed notice when
      that text is empty. */
  function CallGemini(apiKey: Option<string>, out: GeminiOutcome): (r: Result<string>)
    ensures !Configured(apiKey) ==> r == Err(NoKeyError)
    ensures Configured(apiKey) && out.GeminiThrew? ==> r == Err(out.error)
    ensures Configured(apiKey) && out.GeminiResponse? && !HttpOk(out.status) ==>
      r == Err("Gemini: " + NatToString(out.status) + " " + out.bodyText)
    ensures Configured(apiKey) && out.GeminiResponse? && HttpOk(out.status) ==>
      r == Ok(if FirstCandidateText(out.parts) != "" then FirstCandidateText(out.parts) else EmptyReply)
    ensures r.Ok? ==> r.value != [] && !IsSpace(r.value[0]) && !IsSpace(r.value[|r.value| - 1])
  {
    if !Configured(apiKey) then Err(NoKeyError)
    else match out
      case GeminiThrew(e) => Err(e)
      case GeminiResponse(status, bodyText, parts) =>
        if !HttpOk(status) then Err("Gemini: " + NatToString(status) + " " + bodyText)
        else
          var first := FirstCandidateText(parts);
          if first != "" then Ok(first) else Ok(EmptyReply)
  }

  /** Which mode `queryModel` uses for a configuration. */
  function ModeOf(cfg: Config): (m: Mode)
    ensures m == ViaProxy <==> Configured(cfg.proxyUrl)
    ensures m == Direct <==> !Configured(cfg.proxyUrl) && Configured(cfg.apiKey)
    ensures m == Offline <==> !Configured(cfg.proxyUrl) && !Configured(cfg.apiKey)
  {
    if Configured(cfg.proxyUrl) then ViaProxy
    else if Configured(cfg.apiKey) then Direct
    else Offline
  }

  /** A remote result as a reply: a value as it is, an error as a connection message. */
  function AsReply(r: Result<string>): (s: string)
    ensures r.Ok? ==> s == r.value
    ensures r.Err? ==> StartsWith(s, ConnectionErrorPrefix) && s[|ConnectionErrorPrefix|..] == r.message
  {
    match r
    case Ok(v) => v
    case Err(e) => ConnectionErrorPrefix + e
  }

  /** The offline fallback's canned replies, chosen by the normalised prompt. */
  function OfflineReply(prompt: string): (r: string)
    ensures var t := Lower(Trim(prompt));
      (t == "aide" || t == "help" ==> r == HelpReply) &&
      (t != "aide" && t != "help" && StartsWith(t, "ajouter ") ==> r == AddHint)
    ensures var t := Lower(Trim(prompt));
      var progress := Contains(t, "avancement") || Contains(t, "progress") || Contains(t, "progrès");
      (t != "aide" && t != "help" && !StartsWith(t, "ajouter ") && progress ==> r == OfflineProgress) &&
      (t != "aide" && t != "help" && !StartsWith(t, "ajouter ") && !progress ==>
         r == OfflineEchoPrefix + prompt + "\"")
    ensures r == OfflineEchoPrefix + prompt + "\"" || r == OfflineProgress || r == AddHint || r == HelpReply
  {
    var t := Lower(Trim(prompt));
    if t == "aide" || t == "help" then HelpReply
    else if StartsWith(t, "ajouter ") then AddHint
    else if Contains(t, "avancement") || Contains(t, "progress") || Contains(t, "progrès") then OfflineProgress
    else OfflineEchoPrefix + prompt + "\""
  }

  /** `queryModel(prompt)`; `proxyOut` and `geminiOut` are what the proxy and
      Gemini requests would come back with if they were made. */
  function QueryModel(cfg: Config, proxyOut: ProxyOutcome, geminiOut: GeminiOutcome, prompt: string): (r: string)
    ensures Configured(cfg.proxyUrl) ==> r == AsReply(CallProxy(proxyOut))
    ensures !Configured(cfg.proxyUrl) && Configured(cfg.apiKey) ==> r == AsReply(CallGemini(cfg.apiKey, geminiOut))
    ensures !Configured(cfg.proxyUrl) && !Configured(cfg.apiKey) ==> r == OfflineReply(prompt)
  {
    match ModeOf(cfg)
    case ViaProxy => AsReply(CallProxy(proxyOut))
    case Direct => AsReply(CallGemini(cfg.apiKey, geminiOut))
    case Offline => OfflineReply(prompt)
  }

  /** With a proxy configured, the reply depends only on the proxy's outcome:
      neither the API key nor the Gemini outcome nor the prompt matters. */
  lemma ProxyTakesPrecedence(proxyUrl: Option<string>, key1: Option<string>, key2: Option<string>,
                             p: ProxyOutcome, g1: GeminiOutcome, g2: GeminiOutcome, s1: string, s2: string)
    requires Configured(proxyUrl)
    ensures QueryModel(Config(proxyUrl, key1), p, g1, s1) == QueryModel(Config(proxyUrl, key2), p, g2, s2)
    ensures QueryModel(Config(proxyUrl, key1), p, g1, s1) == AsReply(CallProxy(p))
  {
  }

  /** Without a proxy but with a key, the reply depends only on the key and the Gemini outcome. */
  lemma KeyUsedWithoutProxy(cfg: Config, p1: ProxyOutcome, p2: ProxyOutcome, g: GeminiOutcome, s1: string, s2: string)
    requires !Configured(cfg.proxyUrl) && Configured(cfg.apiKey)
    ensures QueryModel(cfg, p1, g, s1) == QueryModel(cfg, p2, g, s2)
    ensures QueryModel(cfg, p1, g, s1) == AsReply(CallGemini(cfg.apiKey, g))
  {
  }

  /** `queryModel` never takes `callGemini`'s missing-key branch: the direct
      mode is only chosen when a key is configured, so the outcome of the
      request decides the result. */
  lemma NoKeyErrorUnreachable(cfg: Config, g: GeminiOutcome)
    requires ModeOf(cfg) == Direct
    ensures g.GeminiThrew? ==> CallGemini(cfg.apiKey, g) == Err(g.error)
    ensures g.GeminiResponse? && HttpOk(g.status) ==> CallGemini(cfg.apiKey, g).Ok?
  {
  }

  /** Every failure of the remote call in use becomes the connection-error reply. */
  lemma FailureBecomesReply(cfg: Config, p: ProxyOutcome, g: GeminiOutcome, prompt: string, e: string)
    requires (ModeOf(cfg) == ViaProxy && CallProxy(p) == Err(e)) ||
             (ModeOf(cfg) == Direct && CallGemini(cfg.apiKey, g) == Err(e))
    ensures QueryModel(cfg, p, g, prompt) == ConnectionErrorPrefix + e
  {
  }

  /** The offline replies are used exactly when nothing is configured, and
      then the remote outcomes play no part. */
  lemma OfflineOnlyWithoutConfig(cfg: Config, p1: ProxyOutcome, p2: ProxyOutcome,
                                 g1: GeminiOutcome, g2: GeminiOutcome, prompt: string)
    requires !Configured(cfg.proxyUrl) && !Configured(cfg.apiKey)
    ensures QueryModel(cfg, p1, g1, prompt) == QueryModel(cfg, p2, g2, prompt) == OfflineReply(prompt)
  {
  }

  /** Offline, a prompt whose normalised form is neither a help word, nor
      starts with `ajouter `, nor mentions progress is echoed verbatim,
      untrimmed, right after the offline prefix. */
  lemma OfflineEchoesPrompt(prompt: string)
    requires var t := Lower(Trim(prompt));
      t != "aide" && t != "help" && !StartsWith(t, "ajouter ") &&
      !Contains(t, "avancement") && !Contains(t, "progress") && !Contains(t, "progrès")
    ensures OfflineReply(prompt) == OfflineEchoPrefix + prompt + "\""
    ensures StartsWith(OfflineReply(prompt), OfflineEchoPrefix)
    ensures OfflineReply(prompt)[|OfflineEchoPrefix|..|OfflineEchoPrefix| + |prompt|] == prompt
  {
    var r := OfflineEchoPrefix + prompt + "\"";
    assert OfflineReply(prompt) == r;
    EchoParts(prompt);
  }

  /** The echo starts with the offline prefix, followed by the prompt. */
  lemma EchoParts(prompt: string)
    ensures var r := OfflineEchoPrefix + prompt + "\"";
      StartsWith(r, OfflineEchoPrefix) && r[|OfflineEchoPrefix|..|OfflineEchoPrefix| + |prompt|] == prompt
  {
  }

  /** The reply of a successful proxy call is its non-empty `reply` field. */
  lemma ProxyReplyField(status: nat, reply: string, json: string)
    requires HttpOk(status) && reply != ""
    ensures CallProxy(ProxyResponse(status, Some(reply), json)) == Ok(reply)
  {
  }

  /** A successful Gemini response without parts, or whose parts join to
      blank text, yields the empty-reply notice. */
  lemma GeminiBlankAnswer(apiKey: Option<string>, status: nat, bodyText: string, parts: Option<seq<Option<string>>>)
    requires Configured(apiKey) && HttpOk(status)
    requires parts.None? || AllSpace(JoinParts(parts.value))
    ensures CallGemini(apiKey, GeminiResponse(status, bodyText, parts)) == Ok(EmptyReply)
  {
  }
}

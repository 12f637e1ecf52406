/** The chat client's submit logic (`handleShorten`) as pure state
    transitions: the guard against blank input and in-flight requests, the
    `https://` defaulting of the typed URL, and what the component's state
    becomes once the request succeeds or fails. The request's outcome and the
    clock readings are parameters; the request itself is returned as data. */
module ChatInterface {
  import opened Optional
  import opened JsString
  import opened Scheme

  /** One shortened link shown in the conversation. `id` is `Date.now()` and
      `createdAt` is `new Date()` at the moment the answer arrived. */
  datatype Message = Message(
    id: int,
    longUrl: string,
    shortUrl: string,
    customDomain: string,
    customAlias: string,
    createdAt: int)

  /** The component's `useState` cells. */
  datatype ChatState = ChatState(
    inputUrl: string,
    customDomain: string,
    customAlias: string,
    showOptions: bool,
    loading: bool,
    messages: seq<Message>)

  /** The arguments of `shortenUrl(longUrl, customDomain, customAlias)`. */
  datatype ShortenCall = ShortenCall(longUrl: string, customDomain: string, customAlias: string)

  /** How the awaited call ended: the short URL it resolved to, or the
      message of the error it threw. */
  datatype CallOutcome = Resolved(shortUrl: string) | Rejected(reason: string)

  /** The two clock readings taken when a message is built. */
  datatype Clock = Clock(nowMillis: int, createdAt: int)

  /** A submission that got past the guard: the call made and the state while
      it is in flight. */
  datatype Submission = Submission(call: ShortenCall, pending: ChatState)

  /** One run of `handleShorten`: the call it made, if any, and the state
      once it has finished. */
  datatype Step = Step(sent: Option<ShortenCall>, next: ChatState)

  /** The state before any interaction. */
  const Initial: ChatState := ChatState("", "", "", false, false, [])

  /** The URL actually sent: the trimmed input, with `https://` put in front
      unless it already starts with `http://` or `https://` in any case. */
  function NormaliseUrl(input: string): (r: string)
    ensures HasScheme(r)
    ensures HasScheme(Trim(input)) ==> r == Trim(input)
    ensures !HasScheme(Trim(input)) ==> r == HttpsPrefix + Trim(input)
  {
    WithDefaultScheme(Trim(input))
  }

  /** A normalised URL is a fixed point: it has no surrounding whitespace and
      already has a scheme. */
  lemma {:induction false} NormaliseUrlIdempotent(input: string)
    ensures NormaliseUrl(NormaliseUrl(input)) == NormaliseUrl(input)
  {
    var r := NormaliseUrl(input);
    assert Trim(r) == r by {
      NormalisedUrlEnds(input);
      TrimKeepsTrimmed(r);
    }
  }

  /** A normalised URL starts with the scheme's `h` and ends in the trimmed
      input's last character, or in the scheme's `/`: never in whitespace. */
  lemma NormalisedUrlEnds(input: string)
    ensures var r := NormaliseUrl(input); !IsWhitespace(r[0]) && !IsWhitespace(r[|r| - 1])
  {
    var r := NormaliseUrl(input);
    var t := Trim(input);
    HasSchemeShape(r);
    if !HasScheme(t) && t == "" {
      assert r[|r| - 1] == '/';
    } else if !HasScheme(t) {
      assert r[|r| - 1] == t[|t| - 1];
    }
  }

  /** The input is worth submitting: not blank, and no request in flight. */
  predicate CanSubmit(s: ChatState) {
    Trim(s.inputUrl) != "" && !s.loading
  }

  /** The synchronous part of `handleShorten`, up to the awaited call. */
  function Submit(s: ChatState): (r: Option<Submission>)
    ensures r.None? <==> Trim(s.inputUrl) == "" || s.loading
    ensures r.Some? ==> r.value.pending == s.(loading := true)
    ensures r.Some? ==> r.value.call == ShortenCall(NormaliseUrl(s.inputUrl), s.customDomain, s.customAlias)
  {
    if !CanSubmit(s) then None
    else Some(Submission(ShortenCall(NormaliseUrl(s.inputUrl), s.customDomain, s.customAlias),
                         s.(loading := true)))
  }

  /** The message recorded for a successful call. Domain and alias are the
      ones captured when the form was submitted. */
  function NewMessage(call: ShortenCall, shortUrl: string, clock: Clock): (m: Message)
    ensures m.longUrl == call.longUrl && m.shortUrl == shortUrl
    ensures m.customDomain == call.customDomain && m.customAlias == call.customAlias
    ensures m.id == clock.nowMillis && m.createdAt == clock.createdAt
  {
    Message(clock.nowMillis, call.longUrl, shortUrl, call.customDomain, call.customAlias,
            clock.createdAt)
  }

  /** The part of `handleShorten` after the call settles, applied to the
      state `current` at that moment. On success one message is appended, the
      URL and alias inputs are emptied and the options panel is closed, while
      the domain is kept; on failure only `loading` changes. Either way
      `loading` ends false. */
  function Settle(current: ChatState, call: ShortenCall, outcome: CallOutcome, clock: Clock)
    : (r: ChatState)
    ensures !r.loading
    ensures r.customDomain == current.customDomain
    ensures outcome.Resolved? ==>
              && r.messages == current.messages + [NewMessage(call, outcome.shortUrl, clock)]
              && r.inputUrl == "" && r.customAlias == "" && !r.showOptions
    ensures outcome.Rejected? ==>
              && r.messages == current.messages
              && r.inputUrl == current.inputUrl && r.customAlias == current.customAlias
              && r.showOptions == current.showOptions
  {
    match outcome
    case Resolved(shortUrl) =>
      current.(messages := current.messages + [NewMessage(call, shortUrl, clock)],
               inputUrl := "", customAlias := "", showOptions := false, loading := false)
    case Rejected(_) =>
      current.(loading := false)
  }

  /** A whole run of `handleShorten` when nothing else changes the state
      while the call is in flight. */
  function HandleShorten(s: ChatState, outcome: CallOutcome, clock: Clock): (r: Step)
    ensures r.sent.None? <==> !CanSubmit(s)
    ensures r.sent.None? ==> r.next == s
    ensures r.sent.Some? ==>
              && HasScheme(r.sent.value.longUrl)
              && r.sent.value.longUrl == NormaliseUrl(s.inputUrl)
              && r.sent.value.customDomain == s.customDomain
              && r.sent.value.customAlias == s.customAlias
              && !r.next.loading
              && r.next.customDomain == s.customDomain
    ensures r.sent.Some? && outcome.Resolved? ==>
              && |r.next.messages| == |s.messages| + 1
              && r.next.messages[..|s.messages|] == s.messages
              && r.next.messages[|s.messages|].longUrl == NormaliseUrl(s.inputUrl)
              && r.next.messages[|s.messages|].shortUrl == outcome.shortUrl
              && r.next.messages[|s.messages|].customDomain == s.customDomain
              && r.next.messages[|s.messages|].customAlias == s.customAlias
              && r.next.inputUrl == "" && r.next.customAlias == "" && !r.next.showOptions
    ensures r.sent.Some? && outcome.Rejected? ==> r.next == s
  {
    match Submit(s)
    case None => Step(None, s)
    case Some(sub) =>
      var next := Settle(sub.pending, sub.call, outcome, clock);
      assert next.messages[..|s.messages|] == s.messages;
      Step(Some(sub.call), next)
  }

  /** While a call is in flight a second submission is ignored. */
  lemma InFlightBlocksResubmit(s: ChatState)
    requires Submit(s).Some?
    ensures Submit(Submit(s).value.pending).None?
  {
  }

  /** The other ways the user changes the state: typing into the three
      inputs, toggling the options panel, and submitting the form. */
  datatype UserEvent =
    | TypeUrl(url: string)
    | TypeDomain(domain: string)
    | TypeAlias(alias: string)
    | ToggleOptions
    | SubmitForm(outcome: CallOutcome, clock: Clock)

  /** One event. Each `onChange` sets its own cell and leaves the others
      alone; the settings button flips `showOptions`; only a submission can
      touch the message list or the `loading` flag. */
  function Apply(s: ChatState, e: UserEvent): (r: ChatState)
    ensures !e.SubmitForm? ==> r.messages == s.messages && r.loading == s.loading
    ensures e.TypeUrl? ==> r == s.(inputUrl := e.url)
    ensures e.TypeDomain? ==> r == s.(customDomain := e.domain)
    ensures e.TypeAlias? ==> r == s.(customAlias := e.alias)
    ensures e.ToggleOptions? ==> r.showOptions != s.showOptions && r.(showOptions := s.showOptions) == s
    ensures e.SubmitForm? ==> r == HandleShorten(s, e.outcome, e.clock).next
  {
    match e
    case TypeUrl(url) => s.(inputUrl := url)
    case TypeDomain(domain) => s.(customDomain := domain)
    case TypeAlias(alias) => s.(customAlias := alias)
    case ToggleOptions => s.(showOptions := !s.showOptions)
    case SubmitForm(outcome, clock) => HandleShorten(s, outcome, clock).next
  }

  /** A sequence of events, applied in order. */
  function Run(s: ChatState, events: seq<UserEvent>): (r: ChatState)
    ensures events == [] ==> r == s
    decreases |events|
  {
    if events == [] then s else Run(Apply(s, events[0]), events[1..])
  }

  /** Every message in the list has a long URL with an explicit scheme, and
      no request is in flight between events. */
  ghost predicate Settled(s: ChatState) {
    && !s.loading
    && forall i :: 0 <= i < |s.messages| ==> HasScheme(s.messages[i].longUrl)
  }

  /** Number of form submissions in `events` that got past the guard and
      succeeded, counted from state `s`. */
  function Successes(s: ChatState, events: seq<UserEvent>): (n: nat)
    ensures n <= |events|
    decreases |events|
  {
    if events == [] then 0
    else
      var e := events[0];
      var counted :=
        if e.SubmitForm? && CanSubmit(s) && e.outcome.Resolved? then 1 else 0;
      counted + Successes(Apply(s, e), events[1..])
  }

  /** One event keeps the state settled and only ever appends to the message
      list, by one message exactly when a submission succeeds. */
  lemma ApplyKeepsSettled(s: ChatState, e: UserEvent)
    requires Settled(s)
    ensures Settled(Apply(s, e))
    ensures s.messages <= Apply(s, e).messages
    ensures |Apply(s, e).messages| == |s.messages| +
              (if e.SubmitForm? && CanSubmit(s) && e.outcome.Resolved? then 1 else 0)
  {
    if e.SubmitForm? {
      var step := HandleShorten(s, e.outcome, e.clock);
      if step.sent.Some? && e.outcome.Resolved? {
        assert step.next.messages == s.messages + [step.next.messages[|s.messages|]];
      }
    }
  }

  /** Over any sequence of events, starting settled: the state stays settled,
      earlier messages are never changed or removed, and the list grows by
      exactly the number of successful submissions. */
  lemma {:induction false} RunKeepsSettled(s: ChatState, events: seq<UserEvent>)
    requires Settled(s)
    ensures Settled(Run(s, events))
    ensures s.messages <= Run(s, events).messages
    ensures |Run(s, events).messages| == |s.messages| + Successes(s, events)
    decreases |events|
  {
    if events != [] {
      var s' := Apply(s, events[0]);
      ApplyKeepsSettled(s, events[0]);
      RunKeepsSettled(s', events[1..]);
    }
  }

  /** From the initial state, every message ever shown has a scheme. */
  lemma InitialRunsSettled(events: seq<UserEvent>)
    ensures Settled(Run(Initial, events))
    ensures |Run(Initial, events).messages| == Successes(Initial, events)
  {
    RunKeepsSettled(Initial, events);
  }
}

/** The delivery policy of the alert notifier: rate limiting on the time of the
    last successful send, at most three attempts with retry on timeout only,
    and the request URL and JSON body. The HTTPS exchange itself is abstract:
    each attempt is given by its outcome and by how long it took. */
module TelegramNotifier {

  /** Attempts per message. */
  const MaxRetries: nat := 3
  /** Minimum time between the last successful send and the next first attempt. */
  const MinIntervalMs: int := 1000
  /** Pause after a timed-out attempt before the next one. */
  const BackoffMs: nat := 1000

  const ApiBase := "https://api.telegram.org/bot"
  const SendPath := "/sendMessage"
  const BodyOpen := "{\"chat_id\":\""
  const TextKey := "\",\"text\":\""
  const BodyClose := "\"}"

  /** A notifier: its credentials and the clock value (ms) of its last successful send. */
  datatype Notifier = Notifier(botToken: string, chatId: string, lastSend: int)

  /** A fresh notifier has never sent: `lastSend` starts at 0, so once the clock reads
      at least `MinIntervalMs` its first message is sent without waiting. */
  function NewNotifier(botToken: string, chatId: string): (n: Notifier)
    ensures n.botToken == botToken && n.chatId == chatId
    ensures forall now :: now >= MinIntervalMs ==> RateLimitWait(n.lastSend, now) == 0
  {
    Notifier(botToken, chatId, 0)
  }

  /** What one `sendRequest` does: return normally, throw `SocketTimeoutException`,
      or throw any other exception; each after `tookMs` milliseconds. */
  datatype Attempt = Delivered(tookMs: nat) | TimedOut(tookMs: nat) | Failed(tookMs: nat)

  /** How a `sendMessage` call ends. */
  datatype Status =
    | Sent         // an attempt succeeded
    | Dropped      // the last allowed attempt timed out
    | Abandoned    // an attempt failed with a non-timeout error
    | Interrupted  // the rate-limit wait was interrupted

  /** One POST request as issued by `sendRequest`. */
  datatype Post = Post(url: string, body: string)

  /** The requests one `sendMessage` call issued, how it ended, and the notifier's
      `lastSend` afterwards. */
  datatype SendReport = SendReport(status: Status, posts: seq<Post>, lastSend: int)

  // ---------------------------------------------------------------------------
  // escapeJson, buildJsonBody, buildUrl

  /** Number of double quotes in `s`. */
  function QuoteCount(s: string): nat
  {
    if s == [] then 0 else (if s[0] == '"' then 1 else 0) + QuoteCount(s[1..])
  }

  /** The replacement `escapeJson` makes for one character. */
  function EscapeChar(c: char): string
  {
    if c == '"' then "\\\"" else [c]
  }

  /** `escapeJson`: `replace("\"", "\\\"")`. Only double quotes are escaped; a
      backslash or a control character passes through unchanged, unlike the string
      escaping required by section 7 of RFC 8259. */
  function EscapeJson(s: string): (r: string)
    ensures |r| == |s| + QuoteCount(s)
    ensures forall i :: 0 <= i < |r| && r[i] == '"' ==> 0 < i && r[i - 1] == '\\'
    decreases |s|
  {
    if s == [] then [] else EscapeChar(s[0]) + EscapeJson(s[1..])
  }

  /** Reading an escaped text back: each `\"` becomes `"`, scanning left to right. */
  function CollapseEscapedQuotes(s: string): (r: string)
    decreases |s|
  {
    if |s| >= 2 && s[0] == '\\' && s[1] == '"' then "\"" + CollapseEscapedQuotes(s[2..])
    else if s == [] then []
    else [s[0]] + CollapseEscapedQuotes(s[1..])
  }

  /** Collapsing every `\"` of the escaped text recovers the original message. */
  lemma {:induction false} EscapeRoundTrip(s: string)
    ensures CollapseEscapedQuotes(EscapeJson(s)) == s
    decreases |s|
  {
    if s != [] {
      var rest := EscapeJson(s[1..]);
      EscapeRoundTrip(s[1..]);
      var e := EscapeJson(s);
      assert e == EscapeChar(s[0]) + rest;
      if s[0] == '"' {
        assert e[2..] == rest;
        assert CollapseEscapedQuotes(e) == "\"" + s[1..];
      } else {
        assert e[1..] == rest;
        assert |rest| > 0 ==> rest[0] != '"';
        assert CollapseEscapedQuotes(e) == [s[0]] + s[1..];
      }
    }
  }

  /** Escaping works character by character: it distributes over concatenation. */
  lemma {:induction false} EscapeDistributes(a: string, b: string)
    ensures EscapeJson(a + b) == EscapeJson(a) + EscapeJson(b)
    decreases |a|
  {
    if a == [] {
      assert a + b == b;
    } else {
      assert (a + b)[0] == a[0];
      assert (a + b)[1..] == a[1..] + b;
      EscapeDistributes(a[1..], b);
    }
  }

  /** A message is sent unchanged exactly when it holds no double quote. */
  lemma {:induction false} EscapeIsIdentityIffNoQuote(s: string)
    ensures EscapeJson(s) == s <==> QuoteCount(s) == 0
    decreases |s|
  {
    if s != [] {
      EscapeIsIdentityIffNoQuote(s[1..]);
      if QuoteCount(s) == 0 {
        assert s[0] != '"';
        assert EscapeJson(s) == [s[0]] + s[1..];
      }
    }
  }

  /** Backslash and newline pass through `escapeJson` untouched. */
  lemma EscapeKeepsBackslashAndNewline()
    ensures EscapeJson("a\\b\nc") == "a\\b\nc"
  {
    EscapeIsIdentityIffNoQuote("a\\b\nc");
  }

  /** The escaped message inside a request body whose chat id has `chatIdLength` characters. */
  function TextField(body: string, chatIdLength: nat): string
    requires |BodyOpen| + chatIdLength + |TextKey| + |BodyClose| <= |body|
  {
    body[|BodyOpen| + chatIdLength + |TextKey| .. |body| - |BodyClose|]
  }

  /** `buildJsonBody`: the chat id is inserted verbatim, the message escaped. */
  function BuildJsonBody(chatId: string, message: string): (r: string)
    ensures |r| == |BodyOpen| + |chatId| + |TextKey| + |message| + QuoteCount(message) + |BodyClose|
    ensures r[..|BodyOpen|] == BodyOpen
    ensures r[|BodyOpen|..|BodyOpen| + |chatId|] == chatId
    ensures r[|BodyOpen| + |chatId|..|BodyOpen| + |chatId| + |TextKey|] == TextKey
    ensures CollapseEscapedQuotes(TextField(r, |chatId|)) == message
    ensures r[|r| - |BodyClose|..] == BodyClose
  {
    var text := EscapeJson(message);
    var r := BodyOpen + chatId + TextKey + text + BodyClose;
    assert TextField(r, |chatId|) == text;
    EscapeRoundTrip(message);
    r
  }

  /** `buildUrl`: the bot token is inserted verbatim between the API base and the method path. */
  function BuildUrl(botToken: string): (r: string)
    ensures |r| == |ApiBase| + |botToken| + |SendPath|
    ensures r[..|ApiBase|] == ApiBase
    ensures r[|ApiBase|..|ApiBase| + |botToken|] == botToken
    ensures r[|r| - |SendPath|..] == SendPath
  {
    ApiBase + botToken + SendPath
  }

  // ---------------------------------------------------------------------------
  // enforceRateLimit and the retry loop of sendMessage

  /** `enforceRateLimit`: how long to sleep at clock `now`. The first attempt starts
      no earlier than `MinIntervalMs` after `lastSend`, and no later than needed. */
  function RateLimitWait(lastSend: int, now: int): (w: nat)
    ensures now + w - lastSend >= MinIntervalMs
    ensures w > 0 ==> now + w == lastSend + MinIntervalMs
    ensures w == 0 <==> now - lastSend >= MinIntervalMs
  {
    var diff := now - lastSend;
    if diff < MinIntervalMs then MinIntervalMs - diff else 0
  }

  /** Total time taken by the given attempts. */
  function Took(attempts: seq<Attempt>): nat
  {
    if attempts == [] then 0 else attempts[0].tookMs + Took(attempts[1..])
  }

  /** The time of a run of attempts is the first one's time plus the rest's. */
  lemma TookFirst(attempts: seq<Attempt>, lo: nat, hi: nat)
    requires lo < hi <= |attempts|
    ensures Took(attempts[lo..hi]) == attempts[lo].tookMs + Took(attempts[lo + 1..hi])
  {
    assert attempts[lo..hi][1..] == attempts[lo + 1..hi];
  }

  /** Attempts `attempt` to `MaxRetries` of the retry loop, the first of them starting
      at clock `clock`; `outcomes[j]` is what attempt `j + 1` does. */
  function Retry(post: Post, outcomes: seq<Attempt>, attempt: nat, clock: int, lastSend: int): (r: SendReport)
    requires 1 <= attempt <= MaxRetries <= |outcomes|
    ensures 1 <= |r.posts| <= MaxRetries - attempt + 1
    ensures forall p :: p in r.posts ==> p == post
    ensures !r.status.Interrupted?
    ensures forall j :: attempt - 1 <= j < attempt + |r.posts| - 2 ==> outcomes[j].TimedOut?
    ensures r.status == Sent <==> outcomes[attempt + |r.posts| - 2].Delivered?
    ensures r.status == Abandoned <==> outcomes[attempt + |r.posts| - 2].Failed?
    ensures r.status == Dropped <==> outcomes[attempt + |r.posts| - 2].TimedOut?
    ensures r.status == Dropped ==> attempt + |r.posts| - 1 == MaxRetries
    ensures r.status == Sent ==>
      r.lastSend == clock + Took(outcomes[attempt - 1..attempt - 1 + |r.posts|]) + BackoffMs * (|r.posts| - 1)
    ensures r.status != Sent ==> r.lastSend == lastSend
    decreases MaxRetries - attempt
  {
    var o := outcomes[attempt - 1];
    var finished := clock + o.tookMs;
    match o
    case Delivered(_) => SendReport(Sent, [post], finished)
    case Failed(_) => SendReport(Abandoned, [post], lastSend)
    case TimedOut(_) =>
      if attempt == MaxRetries then SendReport(Dropped, [post], lastSend)
      else
        var rest := Retry(post, outcomes, attempt + 1, finished + BackoffMs, lastSend);
        TookFirst(outcomes, attempt - 1, attempt + |rest.posts|);
        SendReport(rest.status, [post] + rest.posts, rest.lastSend)
  }

  /** `sendMessage` at clock `now`: wait out the rate limit (or return if that wait is
      interrupted), then make up to `MaxRetries` attempts of the same request, retrying
      only after a timeout. Only a successful attempt moves `lastSend`. */
  function SendMessage(n: Notifier, message: string, now: int, interrupted: bool, outcomes: seq<Attempt>): (r: SendReport)
    requires MaxRetries <= |outcomes|
    ensures r.status == Interrupted <==> interrupted && RateLimitWait(n.lastSend, now) > 0
    ensures r.status == Interrupted ==> r.posts == [] && r.lastSend == n.lastSend
    ensures |r.posts| <= MaxRetries
    ensures forall p :: p in r.posts ==> p == Post(BuildUrl(n.botToken), BuildJsonBody(n.chatId, message))
    ensures r.status != Interrupted ==>
      && 1 <= |r.posts|
      && (forall j :: 0 <= j < |r.posts| - 1 ==> outcomes[j].TimedOut?)
      && (r.status == Sent <==> outcomes[|r.posts| - 1].Delivered?)
      && (r.status == Abandoned <==> outcomes[|r.posts| - 1].Failed?)
      && (r.status == Dropped <==> |r.posts| == MaxRetries && outcomes[|r.posts| - 1].TimedOut?)
    ensures r.status != Sent ==> r.lastSend == n.lastSend
    ensures r.status == Sent ==>
      r.lastSend == now + RateLimitWait(n.lastSend, now) + Took(outcomes[..|r.posts|]) + BackoffMs * (|r.posts| - 1)
    ensures r.status == Sent ==> r.lastSend >= n.lastSend + MinIntervalMs
  {
    var wait := RateLimitWait(n.lastSend, now);
    if wait > 0 && interrupted then SendReport(Interrupted, [], n.lastSend)
    else
      var r := Retry(Post(BuildUrl(n.botToken), BuildJsonBody(n.chatId, message)), outcomes, 1, now + wait, n.lastSend);
      assert outcomes[0..0 + |r.posts|] == outcomes[..|r.posts|];
      r
  }

  /** The notifier after a `sendMessage` call that produced `r`. */
  function After(n: Notifier, r: SendReport): Notifier
  {
    n.(lastSend := r.lastSend)
  }

  /** One `sendMessage` call as the notifier's executor runs it: the message, the clock
      when the call starts, whether its rate-limit wait is interrupted, and what each
      attempt would do. */
  datatype SendCall = SendCall(message: string, now: int, interrupted: bool, outcomes: seq<Attempt>)

  /** Every call says what all of its possible attempts would do. */
  predicate WellFormedCalls(calls: seq<SendCall>)
  {
    forall i :: 0 <= i < |calls| ==> MaxRetries <= |calls[i].outcomes|
  }

  /** Runs `calls` one after another on one notifier and lists the clock values of
      the successful sends, in order. */
  function SuccessTimes(n: Notifier, calls: seq<SendCall>): seq<int>
    requires WellFormedCalls(calls)
    decreases |calls|
  {
    if calls == [] then []
    else
      var c := calls[0];
      var r := SendMessage(n, c.message, c.now, c.interrupted, c.outcomes);
      (if r.status == Sent then [r.lastSend] else []) + SuccessTimes(After(n, r), calls[1..])
  }

  /** Through one notifier, any two successful sends are at least `MinIntervalMs` apart,
      and the first is at least that long after the notifier's previous success. */
  lemma {:induction false} SuccessfulSendsAreSpaced(n: Notifier, calls: seq<SendCall>)
    requires WellFormedCalls(calls)
    ensures forall i :: 0 <= i < |SuccessTimes(n, calls)| ==> SuccessTimes(n, calls)[i] >= n.lastSend + MinIntervalMs
    ensures forall i, j :: 0 <= i < j < |SuccessTimes(n, calls)| ==>
      SuccessTimes(n, calls)[i] + MinIntervalMs <= SuccessTimes(n, calls)[j]
    decreases |calls|
  {
    if calls != [] {
      var c := calls[0];
      var r := SendMessage(n, c.message, c.now, c.interrupted, c.outcomes);
      var n' := After(n, r);
      assert WellFormedCalls(calls[1..]) by {
        forall i | 0 <= i < |calls[1..]| ensures MaxRetries <= |calls[1..][i].outcomes| {
          assert calls[1..][i] == calls[i + 1];
        }
      }
      SuccessfulSendsAreSpaced(n', calls[1..]);
      var head := if r.status == Sent then [r.lastSend] else [];
      var tail := SuccessTimes(n', calls[1..]);
      assert SuccessTimes(n, calls) == head + tail;
      assert n'.lastSend >= n.lastSend;
    }
  }
}

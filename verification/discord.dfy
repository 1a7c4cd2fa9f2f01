/** The webhook sender of octoprint_octorant/discord.py with its thread and HTTP
    call taken out: a FIFO queue of messages, the webhook configuration and one
    piece of mutable state, the time until which Discord asked not to be called.

    Time is an integer number of milliseconds passed in by the caller: `run`
    compares `time.time()` in seconds with `stop_until` and adds
    `retry_after / 1000`, which in milliseconds is adding `retry_after` itself. Each
    turn of the `run` loop is one `Step`, given the time and the HTTP response it
    gets (the response is ignored when the message is dropped before posting), and
    the variant of the thumbnail scanner that `Media.get` runs. */
module Discord {
  import opened Common
  import opened Decimal
  import Media
  import Thumbnail

  /** `Message(content, media=None)`. */
  datatype Message = Message(content: string, media: Option<Media.Media>)

  /** The settings of `set_config`. */
  datatype Config = Config(url: string, username: string, avatar: string, threadId: int)

  datatype Sender = Sender(config: Config, queue: seq<Message>, stopUntil: int)

  /** A freshly constructed `DiscordMessage`. */
  const NEW_SENDER: Sender := Sender(Config("", "", "", 0), [], 0)

  /** `set_config(url, username="", avatar="", thread_id=0)`. */
  function SetConfig(s: Sender, url: string, username: string, avatar: string, threadId: int): (r: Sender)
    ensures r.config == Config(url, username, avatar, threadId)
    ensures r.queue == s.queue && r.stopUntil == s.stopUntil
  {
    s.(config := Config(url, username, avatar, threadId))
  }

  predicate RateLimited(s: Sender, now: int) {
    s.stopUntil > now
  }

  /** `send_message`: refused while rate-limited, otherwise queued at the tail. */
  function SendMessage(s: Sender, now: int, content: string, media: Option<Media.Media>): (r: Sender)
    ensures RateLimited(s, now) ==> r == s
    ensures !RateLimited(s, now) ==>
              |r.queue| == |s.queue| + 1 && r.queue[..|s.queue|] == s.queue
              && r.queue[|s.queue|] == Message(content, media)
    ensures r.config == s.config && r.stopUntil == s.stopUntil
  {
    if RateLimited(s, now) then s
    else s.(queue := s.queue + [Message(content, media)])
  }

  // ---------------------------------------------------------------- one turn

  /** What `requests.post` did: a response (with the `retry_after` field of its JSON
      body, read as an integer, which only matters for status 429), or one of the two
      connection failures the loop catches. */
  datatype Response = Status(code: int, retryAfter: int) | ConnectTimeout | ConnectionError

  datatype DropReason = DropRateLimited | NoUrl | EmptyContent

  /** The request that is made: target URL, form fields and the file part. */
  datatype Post = Post(target: string, payload: map<string, string>, file: Media.Got)

  datatype Outcome =
      /** The queue is empty; the thread would block in `queue.get()`. */
    | Idle
    | Dropped(message: Message, reason: DropReason)
    | Posted(message: Message, post: Post)

  const THREAD_QUERY: string := "?thread_id="

  /** The POST target: the webhook URL, with the thread as a query when one is set. */
  function Target(c: Config): (t: string)
    ensures StartsWith(t, c.url)
    ensures c.threadId <= 0 ==> t == c.url
  {
    if c.threadId > 0 then c.url + THREAD_QUERY + NatText(c.threadId) else c.url
  }

  /** The form fields: the content always, the name and avatar only when set. */
  function Payload(c: Config, content: string): (p: map<string, string>)
    ensures "content" in p && p["content"] == content
    ensures "username" in p <==> c.username != ""
    ensures "username" in p ==> p["username"] == c.username
    ensures "avatar_url" in p <==> c.avatar != ""
    ensures "avatar_url" in p ==> p["avatar_url"] == c.avatar
    ensures p.Keys <= {"content", "username", "avatar_url"}
  {
    var p := map["content" := content];
    var p := if c.username != "" then p["username" := c.username] else p;
    if c.avatar != "" then p["avatar_url" := c.avatar] else p
  }

  /** The new `stop_until` after a response: a 429 with a positive `retry_after`
      pushes it forward from now, a 429 without one leaves it, any other status
      clears it, and a connection failure leaves it. */
  function AfterResponse(stopUntil: int, now: int, response: Response): (r: int)
    ensures response.Status? && response.code == 429 && response.retryAfter > 0 ==>
              r == now + response.retryAfter
    ensures response.Status? && response.code == 429 && response.retryAfter <= 0 ==> r == stopUntil
    ensures response.Status? && response.code != 429 ==> r == 0
    ensures !response.Status? ==> r == stopUntil
  {
    match response
    case Status(code, retryAfter) =>
      if code == 429 then (if retryAfter > 0 then now + retryAfter else stopUntil) else 0
    case ConnectTimeout => stopUntil
    case ConnectionError => stopUntil
  }

  /** One turn of `run`: take the head of the queue, drop it when rate-limited, when
      no URL is set or when it has no content (in that order), otherwise post it and
      update `stop_until` from the response. */
  function Step(v: Thumbnail.Variant, s: Sender, now: int, fs: Media.FileSystem, response: Response): (r: (Sender, Outcome))
    ensures |s.queue| == 0 <==> r.1.Idle?
    ensures |s.queue| == 0 ==> r.0 == s
    ensures |s.queue| > 0 ==> r.0.queue == s.queue[1..] && r.1.message == s.queue[0]
    ensures r.0.config == s.config
    ensures r.1.Dropped? ==> r.0.stopUntil == s.stopUntil
    ensures r.1.Posted? ==> r.0.stopUntil == AfterResponse(s.stopUntil, now, response)
    ensures r.1.Dropped? && r.1.reason == DropRateLimited <==> |s.queue| > 0 && RateLimited(s, now)
    ensures r.1.Posted? <==>
              |s.queue| > 0 && !RateLimited(s, now) && s.config.url != "" && s.queue[0].content != ""
  {
    if |s.queue| == 0 then (s, Idle)
    else
      var m := s.queue[0];
      var rest := s.queue[1..];
      if RateLimited(s, now) then (s.(queue := rest), Dropped(m, DropRateLimited))
      else if s.config.url == "" then (s.(queue := rest), Dropped(m, NoUrl))
      else if m.content == "" then (s.(queue := rest), Dropped(m, EmptyContent))
      else
        var file := if m.media.Some? then Media.Get(v, m.media.value, fs) else Media.NoAttachment;
        var post := Post(Target(s.config), Payload(s.config, m.content), file);
        (Sender(s.config, rest, AfterResponse(s.stopUntil, now, response)), Posted(m, post))
  }

  // ---------------------------------------------------------------- properties

  /** The thread query written after the URL reads back as the thread id. */
  lemma TargetThreadRoundTrip(c: Config)
    requires c.threadId > 0
    ensures var t := Target(c);
            var q := t[|c.url|..];
            StartsWith(q, THREAD_QUERY)
            && AllDigits(q[|THREAD_QUERY|..]) && ParseDigits(q[|THREAD_QUERY|..]) == c.threadId
  {
    var t := Target(c);
    var n := NatText(c.threadId);
    assert t == c.url + (THREAD_QUERY + n);
    assert t[|c.url|..] == THREAD_QUERY + n;
    assert (THREAD_QUERY + n)[..|THREAD_QUERY|] == THREAD_QUERY;
    assert (THREAD_QUERY + n)[|THREAD_QUERY|..] == n;
  }

  /** Everything about the post but the response: what goes out for a message that
      passes the three checks. */
  lemma PostedRequest(v: Thumbnail.Variant, s: Sender, now: int, fs: Media.FileSystem, response: Response)
    requires |s.queue| > 0 && !RateLimited(s, now)
    requires s.config.url != "" && s.queue[0].content != ""
    ensures var (_, out) := Step(v, s, now, fs, response);
            out.Posted?
            && out.post.target == Target(s.config)
            && out.post.payload == Payload(s.config, s.queue[0].content)
            && (s.queue[0].media.None? ==> out.post.file == Media.NoAttachment)
            && (s.queue[0].media.Some? ==> out.post.file == Media.Get(v, s.queue[0].media.value, fs))
  {
  }

  /** A fresh sender is idle, and a message queued before `set_config` is dropped
      for the missing URL. */
  lemma UnconfiguredDrops(v: Thumbnail.Variant, now: int, content: string, media: Option<Media.Media>,
                          fs: Media.FileSystem, response: Response)
    requires now >= 0
    ensures Step(v, NEW_SENDER, now, fs, response) == (NEW_SENDER, Idle)
    ensures var s := SendMessage(NEW_SENDER, now, content, media);
            |s.queue| == 1 && Step(v, s, now, fs, response).1 == Dropped(s.queue[0], NoUrl)
  {
  }

  /** The drop reasons are checked in order: the first that holds is the one given. */
  lemma DropOrder(v: Thumbnail.Variant, s: Sender, now: int, fs: Media.FileSystem, response: Response)
    requires |s.queue| > 0
    ensures var out := Step(v, s, now, fs, response).1;
            (out.Dropped? && out.reason == NoUrl <==> !RateLimited(s, now) && s.config.url == "")
            && (out.Dropped? && out.reason == EmptyContent <==>
                  !RateLimited(s, now) && s.config.url != "" && s.queue[0].content == "")
  {
  }

  /** After a 429 asking to wait `retryAfter` ms at time `t`, until `t + retryAfter`
      no new message is queued and every queued message is dropped unsent. */
  lemma BackOffHolds(v: Thumbnail.Variant, s: Sender, t: int, fs: Media.FileSystem, retryAfter: int,
                     later: int, content: string, media: Option<Media.Media>, response: Response)
    requires |s.queue| > 0 && !RateLimited(s, t)
    requires s.config.url != "" && s.queue[0].content != ""
    requires retryAfter > 0 && t <= later < t + retryAfter
    ensures var s1 := Step(v, s, t, fs, Status(429, retryAfter)).0;
            SendMessage(s1, later, content, media) == s1
            && (|s1.queue| > 0 ==> Step(v, s1, later, fs, response).1 == Dropped(s1.queue[0], DropRateLimited))
  {
    var s1 := Step(v, s, t, fs, Status(429, retryAfter)).0;
    assert s1.stopUntil == t + retryAfter;
  }

  /** Any answer but a 429 lifts the rate limit. */
  lemma SuccessClearsBackOff(v: Thumbnail.Variant, s: Sender, now: int, fs: Media.FileSystem, code: int, retryAfter: int)
    requires |s.queue| > 0 && !RateLimited(s, now)
    requires s.config.url != "" && s.queue[0].content != ""
    requires code != 429 && now >= 0
    ensures !RateLimited(Step(v, s, now, fs, Status(code, retryAfter)).0, now)
  {
  }

  // ---------------------------------------------------------------- many turns

  /** One loop turn per input, for as long as the queue holds messages. */
  function Drain(v: Thumbnail.Variant, s: Sender, inputs: seq<(int, Response)>, fs: Media.FileSystem): (r: (Sender, seq<Outcome>))
    ensures |r.1| <= |inputs| && |r.1| <= |s.queue|
    ensures |r.0.queue| == |s.queue| - |r.1|
    ensures |r.1| < |inputs| ==> |r.0.queue| == 0
    ensures r.0.config == s.config
    decreases |inputs|
  {
    if |inputs| == 0 || |s.queue| == 0 then (s, [])
    else
      var (s1, out) := Step(v, s, inputs[0].0, fs, inputs[0].1);
      var (s2, outs) := Drain(v, s1, inputs[1..], fs);
      (s2, [out] + outs)
  }

  function Min(a: nat, b: nat): nat {
    if a <= b then a else b
  }

  /** The loop consumes the queue in order, each message exactly once: the k-th turn
      handles the k-th queued message, and what is left is the rest of the queue. */
  lemma {:induction false} DrainIsFifo(v: Thumbnail.Variant, s: Sender, inputs: seq<(int, Response)>, fs: Media.FileSystem)
    ensures var (s2, outs) := Drain(v, s, inputs, fs);
            var k := Min(|inputs|, |s.queue|);
            |outs| == k
            && (forall i :: 0 <= i < k ==> !outs[i].Idle? && outs[i].message == s.queue[i])
            && s2.queue == s.queue[k..]
            && s2.config == s.config
    decreases |inputs|
  {
    if |inputs| > 0 && |s.queue| > 0 {
      var (s1, out) := Step(v, s, inputs[0].0, fs, inputs[0].1);
      DrainIsFifo(v, s1, inputs[1..], fs);
      var (s2, outs) := Drain(v, s1, inputs[1..], fs);
      assert Drain(v, s, inputs, fs) == (s2, [out] + outs);
      var k := Min(|inputs|, |s.queue|);
      assert s1.queue == s.queue[1..];
      forall i | 0 <= i < k
        ensures !([out] + outs)[i].Idle? && ([out] + outs)[i].message == s.queue[i]
      {
        if i > 0 {
          assert ([out] + outs)[i] == outs[i - 1];
          assert s1.queue[i - 1] == s.queue[i];
        }
      }
      assert s.queue[1..][k - 1..] == s.queue[k..];
    }
  }

  /** Messages accepted by `SendMessage` come out of the loop in the order they were
      sent: appending to the tail never changes what the earlier turns see. */
  lemma {:induction false} SendThenDrain(v: Thumbnail.Variant, s: Sender, now: int, content: string, media: Option<Media.Media>,
                                         inputs: seq<(int, Response)>, fs: Media.FileSystem)
    requires !RateLimited(s, now)
    ensures var (_, outs) := Drain(v, SendMessage(s, now, content, media), inputs, fs);
            |inputs| > |s.queue| ==>
              |outs| > |s.queue| && !outs[|s.queue|].Idle? && outs[|s.queue|].message == Message(content, media)
  {
    var s1 := SendMessage(s, now, content, media);
    DrainIsFifo(v, s1, inputs, fs);
  }
}

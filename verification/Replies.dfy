/** The command line watcher: which replies it shows, over any run of polls, stream events and session switches. */
module Replies {
  import opened Text

  datatype Params = Params(thread: Option<string>, content: Option<string>)
  datatype LogEvent = LogEvent(action: Option<string>, params: Option<Params>, timestamp: Option<string>)
  type Log = seq<LogEvent>

  datatype Reply = Reply(key: string, content: string)

  datatype PlanStatus = UnderReview | Escalated
  datatype EndStatus = Failed | Cancelled
  datatype FailedAction = RouteFailed | ReplyFailed | ConnectFailed

  /** What a notice is about. A failure is about an event, taken apart as its key is put together. */
  datatype Subject =
    | SessionDecision(session: string, decision: string)
    | SessionPlan(session: string, plan: string)
    | SessionEnded(session: string, end: EndStatus, error: string)
    | PendingDecision(decision: string)
    | PlanReview(plan: string, review: PlanStatus)
    | Failure(thread: string, action: FailedAction, timestamp: string, content: string)

  datatype Notice = Notice(subject: Subject, text: string)
  datatype Sent = SentReply(reply: Reply) | SentNotice(notice: Notice)

  /** One fetch of the channel for the thread active then, or one list of notices. A fetch may fail. */
  datatype Round = FetchReplies(thread: string, log: Option<Log>) | EmitNotices(notices: seq<Notice>)

  datatype Watching = Watching(seen: set<string>, sent: seq<Sent>)

  const REPLY := "ReplyDelivered"

  function OrEmpty(s: Option<string>): string {
    if s.Some? then s.value else ""
  }

  function KeyOf(thread: string, action: string, timestamp: string, content: string): string {
    thread + ":" + action + ":" + timestamp + ":" + content
  }

  function EventKey(event: LogEvent, threadId: string): string {
    var action := OrEmpty(event.action);
    var eventThread := if event.params.Some? then OrEmpty(event.params.value.thread) else "";
    var thread := if threadId == "" then eventThread else threadId;
    var content := if event.params.Some? then OrEmpty(event.params.value.content) else "";
    KeyOf(thread, action, OrEmpty(event.timestamp), content)
  }

  /** A notice key begins with what the notice is about. */
  function KindOf(subject: Subject): string {
    match subject
    case SessionDecision(_, _) => "session"
    case SessionPlan(_, _) => "session"
    case SessionEnded(_, _, _) => "session"
    case PendingDecision(_) => "decision"
    case PlanReview(_, _) => "plan"
    case Failure(_, _, _, _) => "failure"
  }

  function ActionName(action: FailedAction): string {
    match action
    case RouteFailed => "RouteFailed"
    case ReplyFailed => "ReplyFailed"
    case ConnectFailed => "ConnectFailed"
  }

  function DetailOf(subject: Subject): string {
    match subject
    case SessionDecision(session, decision) => session + ":" + "decision" + ":" + decision
    case SessionPlan(session, plan) => session + ":" + "plan" + ":" + plan
    case SessionEnded(session, end, error) =>
      session + ":" + (if end == Failed then "Failed" else "Cancelled") + ":" + error
    case PendingDecision(decision) => decision
    case PlanReview(plan, review) => plan + ":" + (if review == UnderReview then "UnderReview" else "Escalated")
    case Failure(thread, action, timestamp, content) => KeyOf(thread, ActionName(action), timestamp, content)
  }

  function NoticeKey(subject: Subject): string {
    KindOf(subject) + ":" + DetailOf(subject)
  }

  function SentKey(s: Sent): string {
    match s case SentReply(reply) => reply.key case SentNotice(notice) => NoticeKey(notice.subject)
  }

  predicate Delivered(event: LogEvent) {
    event.action == Some(REPLY)
  }

  /** A delivered reply of this thread that is not blank. */
  predicate IsReplyOf(event: LogEvent, thread: string) {
    Delivered(event) && event.params.Some? && event.params.value.thread == Some(thread)
    && event.params.value.content.Some? && Trim(event.params.value.content.value) != ""
  }

  function ReplyOf(event: LogEvent, thread: string): Reply
    requires IsReplyOf(event, thread)
  {
    Reply(EventKey(event, thread), event.params.value.content.value)
  }

  function ExtractReplies(log: Log, thread: string): seq<Reply> {
    if log == [] then []
    else
      var front, event := ExtractReplies(log[..|log| - 1], thread), log[|log| - 1];
      if IsReplyOf(event, thread) then front + [ReplyOf(event, thread)] else front
  }

  function StartKeys(log: Log): set<string> {
    set i | 0 <= i < |log| && Delivered(log[i]) :: EventKey(log[i], "")
  }

  function Show(w: Watching, s: Sent): Watching {
    if SentKey(s) in w.seen then w else Watching(w.seen + {SentKey(s)}, w.sent + [s])
  }

  function ShowReplies(w: Watching, replies: seq<Reply>): Watching {
    if replies == [] then w
    else
      Show(ShowReplies(w, replies[..|replies| - 1]), SentReply(replies[|replies| - 1]))
  }

  function ShowNotices(w: Watching, notices: seq<Notice>): Watching {
    if notices == [] then w
    else
      Show(ShowNotices(w, notices[..|notices| - 1]), SentNotice(notices[|notices| - 1]))
  }

  function AfterRound(w: Watching, round: Round): Watching {
    match round
    case FetchReplies(thread, log) => if log.None? then w else ShowReplies(w, ExtractReplies(log.value, thread))
    case EmitNotices(notices) => ShowNotices(w, notices)
  }

  function Started(start: Option<Log>): Watching {
    Watching(if start.Some? then StartKeys(start.value) else {}, [])
  }

  function AfterRounds(start: Option<Log>, rounds: seq<Round>): Watching {
    if rounds == [] then Started(start)
    else AfterRound(AfterRounds(start, rounds[..|rounds| - 1]), rounds[|rounds| - 1])
  }

  // ---- the key does not depend on how it was asked for ----

  /** The key marked at start-up is the key looked up later for the event's own thread. */
  lemma KeysAgree(event: LogEvent, thread: string)
    requires IsReplyOf(event, thread)
    ensures EventKey(event, thread) == EventKey(event, "")
  {
  }

  /** Reply r is what one of the first n events of the log says to this thread. */
  ghost predicate SaidIn(log: Log, n: nat, thread: string, r: Reply)
    requires n <= |log|
  {
    exists i | 0 <= i < n :: IsReplyOf(log[i], thread) && r == ReplyOf(log[i], thread)
  }

  lemma {:induction false} ExtractedAre(log: Log, n: nat, thread: string, r: Reply)
    requires n <= |log|
    ensures r in ExtractReplies(log[..n], thread) <==> SaidIn(log, n, thread, r)
  {
    if n > 0 {
      ExtractedAre(log, n - 1, thread, r);
      assert log[..n][..n - 1] == log[..n - 1];
    }
  }

  // ---- invariant ----

  function SentKeys(sent: seq<Sent>): set<string> {
    set i | 0 <= i < |sent| :: SentKey(sent[i])
  }

  /** Everything seen was there at the start or was shown, and nothing was shown twice. */
  ghost predicate Exact(w: Watching, startKeys: set<string>) {
    && w.seen == startKeys + SentKeys(w.sent)
    && SentKeys(w.sent) !! startKeys
    && forall i, j | 0 <= i < j < |w.sent| :: SentKey(w.sent[i]) != SentKey(w.sent[j])
  }

  lemma ShowKeeps(w: Watching, s: Sent, startKeys: set<string>)
    requires Exact(w, startKeys)
    ensures Exact(Show(w, s), startKeys) && w.seen + {SentKey(s)} == Show(w, s).seen && w.sent <= Show(w, s).sent
  {
    if SentKey(s) !in w.seen {
      var sent := w.sent + [s];
      forall k ensures k in SentKeys(sent) <==> k in SentKeys(w.sent) || k == SentKey(s) {
        if k in SentKeys(w.sent) {
          var i :| 0 <= i < |w.sent| && SentKey(w.sent[i]) == k;
          assert SentKey(sent[i]) == k;
        }
        if k == SentKey(s) {
          assert SentKey(sent[|w.sent|]) == k;
        }
      }
      forall i | 0 <= i < |w.sent| ensures SentKey(sent[i]) != SentKey(s) {
        assert SentKey(w.sent[i]) in SentKeys(w.sent);
      }
    }
  }

  lemma {:induction false} ShowRepliesKeeps(w: Watching, replies: seq<Reply>, startKeys: set<string>)
    requires Exact(w, startKeys)
    ensures Exact(ShowReplies(w, replies), startKeys)
    ensures w.seen <= ShowReplies(w, replies).seen && w.sent <= ShowReplies(w, replies).sent
    ensures forall r | r in replies :: r.key in ShowReplies(w, replies).seen
  {
    if replies != [] {
      var front, last := replies[..|replies| - 1], replies[|replies| - 1];
      ShowRepliesKeeps(w, front, startKeys);
      ShowKeeps(ShowReplies(w, front), SentReply(last), startKeys);
      assert forall r | r in replies :: r in front || r == last;
    }
  }

  lemma {:induction false} ShowNoticesKeeps(w: Watching, notices: seq<Notice>, startKeys: set<string>)
    requires Exact(w, startKeys)
    ensures Exact(ShowNotices(w, notices), startKeys)
    ensures w.seen <= ShowNotices(w, notices).seen && w.sent <= ShowNotices(w, notices).sent
  {
    if notices != [] {
      var front, last := notices[..|notices| - 1], notices[|notices| - 1];
      ShowNoticesKeeps(w, front, startKeys);
      ShowKeeps(ShowNotices(w, front), SentNotice(last), startKeys);
    }
  }

  lemma {:induction false} RoundsKeep(start: Option<Log>, rounds: seq<Round>)
    ensures Exact(AfterRounds(start, rounds), Started(start).seen)
  {
    if rounds == [] {
      assert SentKeys([]) == {};
    } else {
      var before := AfterRounds(start, rounds[..|rounds| - 1]);
      RoundsKeep(start, rounds[..|rounds| - 1]);
      match rounds[|rounds| - 1] {
        case FetchReplies(thread, log) =>
          if log.Some? {
            ShowRepliesKeeps(before, ExtractReplies(log.value, thread), Started(start).seen);
          }
        case EmitNotices(notices) => ShowNoticesKeeps(before, notices, Started(start).seen);
      }
    }
  }

  // ---- what a user sees ----

  /** Nothing is shown twice, whatever is fetched and whichever session is active. */
  lemma ShownAtMostOnce(start: Option<Log>, rounds: seq<Round>, i: nat, j: nat)
    requires i < j < |AfterRounds(start, rounds).sent|
    ensures SentKey(AfterRounds(start, rounds).sent[i]) != SentKey(AfterRounds(start, rounds).sent[j])
  {
    RoundsKeep(start, rounds);
  }

  /** A reply that was there at a successful start-up is never shown, for whichever thread it is fetched. */
  lemma OldRepliesAreNeverShown(start: Log, rounds: seq<Round>, event: LogEvent, thread: string, i: nat)
    requires event in start && IsReplyOf(event, thread) && i < |AfterRounds(Some(start), rounds).sent|
    ensures SentKey(AfterRounds(Some(start), rounds).sent[i]) != EventKey(event, thread)
  {
    RoundsKeep(Some(start), rounds);
    KeysAgree(event, thread);
    var n :| 0 <= n < |start| && start[n] == event;
    assert EventKey(start[n], "") in StartKeys(start);
    assert SentKey(AfterRounds(Some(start), rounds).sent[i]) in SentKeys(AfterRounds(Some(start), rounds).sent);
  }

  /** An event that delivers a text that is not blank to this thread. */
  ghost predicate Delivers(event: LogEvent, thread: string) {
    event.action == Some("ReplyDelivered") && event.params.Some? && event.params.value.thread == Some(thread)
    && event.params.value.content.Some? && Trim(event.params.value.content.value) != ""
  }

  /** After a fetch the key of every non-blank reply of the active thread is in the seen set. */
  lemma FetchedAreSeen(start: Option<Log>, rounds: seq<Round>, thread: string, log: Log, event: LogEvent)
    requires event in log && Delivers(event, thread)
    ensures var after := AfterRounds(start, rounds + [FetchReplies(thread, Some(log))]);
            EventKey(event, thread) in after.seen
            && (EventKey(event, thread) in SentKeys(after.sent) <==> EventKey(event, thread) !in Started(start).seen)
  {
    var all := rounds + [FetchReplies(thread, Some(log))];
    assert all[..|all| - 1] == rounds;
    RoundsKeep(start, rounds);
    RoundsKeep(start, all);
    var n :| 0 <= n < |log| && log[n] == event;
    assert SaidIn(log, |log|, thread, ReplyOf(log[n], thread));
    ExtractedAre(log, |log|, thread, ReplyOf(event, thread));
    assert log[..|log|] == log;
    ShowRepliesKeeps(AfterRounds(start, rounds), ExtractReplies(log, thread), Started(start).seen);
  }

  // ---- in which order replies are shown ----

  ghost predicate Increasing(at: seq<nat>) {
    forall i, j | 0 <= i < j < |at| :: at[i] < at[j]
  }

  /** These places of the log hold these replies. */
  ghost predicate PlacesOf(log: Log, thread: string, replies: seq<Reply>, at: seq<nat>) {
    |at| == |replies|
    && forall j | 0 <= j < |at| ::
         at[j] < |log| && IsReplyOf(log[at[j]], thread) && replies[j] == ReplyOf(log[at[j]], thread)
  }

  ghost predicate AllPlaces(log: Log, thread: string, at: seq<nat>) {
    Increasing(at) && forall i: nat | i < |log| && IsReplyOf(log[i], thread) :: i in at
  }

  lemma PlacesStay(log: Log, event: LogEvent, thread: string, replies: seq<Reply>, at: seq<nat>)
    requires PlacesOf(log, thread, replies, at) && AllPlaces(log, thread, at)
    ensures PlacesOf(log + [event], thread, replies, at)
    ensures !IsReplyOf(event, thread) ==> AllPlaces(log + [event], thread, at)
  {
    var more := log + [event];
    assert forall j | 0 <= j < |at| :: more[at[j]] == log[at[j]];
    assert forall i: nat | i < |log| :: more[i] == log[i];
  }

  lemma PlacesOneMore(log: Log, event: LogEvent, thread: string, replies: seq<Reply>, at: seq<nat>)
    requires PlacesOf(log, thread, replies, at) && AllPlaces(log, thread, at) && IsReplyOf(event, thread)
    ensures PlacesOf(log + [event], thread, replies + [ReplyOf(event, thread)], at + [|log|])
    ensures AllPlaces(log + [event], thread, at + [|log|])
  {
    var more, places := log + [event], at + [|log|];
    assert forall j | 0 <= j < |at| :: more[at[j]] == log[at[j]];
    assert places[|at|] == |log|;
    forall i: nat | i < |more| && IsReplyOf(more[i], thread) ensures i in places {
      assert i < |log| ==> more[i] == log[i] && i in at;
    }
  }

  /** The replies taken from a log are those of its events that are replies, each once and in their order. */
  lemma {:induction false} ExtractedInOrder(log: Log, thread: string) returns (at: seq<nat>)
    ensures PlacesOf(log, thread, ExtractReplies(log, thread), at) && AllPlaces(log, thread, at)
  {
    if log == [] {
      at := [];
    } else {
      var front, event := log[..|log| - 1], log[|log| - 1];
      at := ExtractedInOrder(front, thread);
      assert log == front + [event];
      if IsReplyOf(event, thread) {
        PlacesOneMore(front, event, thread, ExtractReplies(front, thread), at);
        at := at + [|front|];
      } else {
        PlacesStay(front, event, thread, ExtractReplies(front, thread), at);
      }
    }
  }

  /** These places of the list hold what was newly shown. */
  ghost predicate ShownOf(sent: seq<Sent>, after: seq<Sent>, replies: seq<Reply>, at: seq<nat>) {
    sent <= after && |after| == |sent| + |at|
    && forall j | 0 <= j < |at| :: at[j] < |replies| && after[|sent| + j] == SentReply(replies[at[j]])
  }

  lemma ShownStays(sent: seq<Sent>, after: seq<Sent>, replies: seq<Reply>, reply: Reply, at: seq<nat>)
    requires ShownOf(sent, after, replies, at)
    ensures ShownOf(sent, after, replies + [reply], at)
    ensures ShownOf(sent, after + [SentReply(reply)], replies + [reply], at + [|replies|])
  {
    assert forall j | 0 <= j < |at| :: (replies + [reply])[at[j]] == replies[at[j]];
  }

  /** Of a list of replies those not seen yet are shown, in the order of the list. */
  lemma {:induction false} ShownInOrder(w: Watching, replies: seq<Reply>) returns (at: seq<nat>)
    ensures ShownOf(w.sent, ShowReplies(w, replies).sent, replies, at) && Increasing(at)
  {
    if replies == [] {
      at := [];
    } else {
      var front, last := replies[..|replies| - 1], replies[|replies| - 1];
      at := ShownInOrder(w, front);
      assert replies == front + [last];
      ShownStays(w.sent, ShowReplies(w, front).sent, front, last, at);
      if SentKey(SentReply(last)) !in ShowReplies(w, front).seen {
        at := at + [|front|];
      }
    }
  }

  /** Places of places. */
  ghost function Composed(outer: seq<nat>, inner: seq<nat>): (at: seq<nat>)
    requires forall j | 0 <= j < |inner| :: inner[j] < |outer|
    ensures |at| == |inner| && forall j | 0 <= j < |inner| :: at[j] == outer[inner[j]]
  {
    seq(|inner|, j requires 0 <= j < |inner| => outer[inner[j]])
  }

  /** Shown reply j was said by the event at place at[j] of the log. */
  ghost predicate ShownFrom(sent: seq<Sent>, after: seq<Sent>, log: Log, thread: string, at: seq<nat>) {
    sent <= after && |after| == |sent| + |at|
    && forall j | 0 <= j < |at| ::
         at[j] < |log| && Says(log[at[j]], thread, after[|sent| + j])
  }

  /** The event delivers this text, which is not blank, to this thread. */
  ghost predicate Says(event: LogEvent, thread: string, sent: Sent) {
    && event.action == Some("ReplyDelivered") && event.params.Some? && event.params.value.thread == Some(thread)
    && sent.SentReply? && event.params.value.content == Some(sent.reply.content) && Trim(sent.reply.content) != ""
    && sent.reply.key == EventKey(event, thread)
  }

  /** What one fetch shows are replies of its log, in the order of the log. */
  lemma RepliesAreShownInLogOrder(start: Option<Log>, rounds: seq<Round>, thread: string, log: Log)
    returns (at: seq<nat>)
    ensures Increasing(at)
    ensures ShownFrom(AfterRounds(start, rounds).sent,
                      AfterRounds(start, rounds + [FetchReplies(thread, Some(log))]).sent, log, thread, at)
  {
    var all := rounds + [FetchReplies(thread, Some(log))];
    assert all[..|all| - 1] == rounds;
    var places := ExtractedInOrder(log, thread);
    var shown := ShownInOrder(AfterRounds(start, rounds), ExtractReplies(log, thread));
    at := Composed(places, shown);
  }

  // ---- replies and notices share one set of keys ----

  const RESERVED := {"session", "decision", "plan", "failure"}

  predicate ColonFree(s: string) {
    forall i | 0 <= i < |s| :: s[i] != ':'
  }

  /** What stands before the first colon. */
  function Head(s: string): string {
    if s == "" || s[0] == ':' then "" else [s[0]] + Head(s[1..])
  }

  predicate Reserved(thread: string) {
    Head(thread) in RESERVED
  }

  lemma {:induction false} HeadOfJoined(a: string, b: string)
    ensures Head(a + ":" + b) == Head(a) && (ColonFree(a) ==> Head(a) == a)
  {
    if a != "" && a[0] != ':' {
      HeadOfJoined(a[1..], b);
      assert (a + ":" + b)[1..] == a[1..] + ":" + b;
    } else {
      assert a != "" ==> (a + ":" + b)[0] == a[0];
    }
  }

  /** A text starts with its head, and a colon follows unless that is all. */
  lemma {:induction false} HeadSplits(s: string)
    ensures Head(s) <= s && (s == Head(s) || s[|Head(s)|] == ':')
  {
    if s != "" && s[0] != ':' {
      HeadSplits(s[1..]);
      assert s == [s[0]] + s[1..];
    }
  }

  function Stamp(event: LogEvent): string {
    OrEmpty(event.timestamp)
  }

  function ContentOf(event: LogEvent, thread: string): string
    requires IsReplyOf(event, thread)
  {
    event.params.value.content.value
  }

  lemma ReplyKeyIs(event: LogEvent, thread: string)
    requires IsReplyOf(event, thread)
    ensures EventKey(event, thread) == thread + ":" + (REPLY + ":" + (Stamp(event) + ":" + ContentOf(event, thread)))
  {
    var content := ContentOf(event, thread);
    assert EventKey(event, thread) == thread + ":" + REPLY + ":" + Stamp(event) + ":" + content;
  }

  lemma KindIsReserved(subject: Subject)
    ensures ColonFree(KindOf(subject)) && KindOf(subject) in RESERVED
  {
  }

  /** A thread whose name does not begin like a notice key has its replies to itself. */
  lemma NoticesKeepOff(event: LogEvent, thread: string, subject: Subject)
    requires IsReplyOf(event, thread) && !Reserved(thread)
    ensures NoticeKey(subject) != EventKey(event, thread)
  {
    ReplyKeyIs(event, thread);
    HeadOfJoined(thread, REPLY + ":" + (Stamp(event) + ":" + ContentOf(event, thread)));
    HeadOfJoined(KindOf(subject), DetailOf(subject));
    KindIsReserved(subject);
  }

  function ReplyEvent(thread: string, timestamp: string, content: string): LogEvent {
    LogEvent(Some(REPLY), Some(Params(Some(thread), Some(content))), Some(timestamp))
  }

  lemma KeySplits(thread: string, head: string, middle: string, timestamp: string, content: string)
    requires thread + ":" + REPLY == head + ":" + middle
    ensures KeyOf(thread, REPLY, timestamp, content) == head + ":" + (middle + ":" + timestamp + ":" + content)
  {
    calc {
      KeyOf(thread, REPLY, timestamp, content);
      head + ":" + middle + ":" + timestamp + ":" + content;
      head + ":" + (middle + ":" + timestamp + ":" + content);
    }
  }

  lemma FailureDetail(middle: string, timestamp: string, content: string)
    ensures DetailOf(Failure(middle, RouteFailed, timestamp, content))
            == middle + ":" + "RouteFailed" + ":" + (timestamp + ":" + content)
  {
  }

  function Clashing(head: string, middle: string): (string, string, Subject) {
    if head == "session" then ("decision", "d", SessionDecision(middle, "d"))
    else if head == "decision" then ("t", "c", PendingDecision(middle + ":" + "t" + ":" + "c"))
    else if head == "plan" then ("t", "UnderReview", PlanReview(middle + ":" + "t", UnderReview))
    else ("RouteFailed", "t" + ":" + "c", Failure(middle, RouteFailed, "t", "c"))
  }

  lemma ClashingClash(head: string, middle: string)
    requires head in RESERVED
    ensures var (timestamp, content, subject) := Clashing(head, middle);
            KindOf(subject) == head && DetailOf(subject) == middle + ":" + timestamp + ":" + content
            && content != "" && Trim(content) == content
  {
    FailureDetail(middle, "t", "c");
  }

  /** Any other thread has a reply that some notice takes the key of. */
  lemma ReservedIsTaken(thread: string) returns (event: LogEvent, subject: Subject)
    requires Reserved(thread)
    ensures IsReplyOf(event, thread) && NoticeKey(subject) == EventKey(event, thread)
  {
    var head := Head(thread);
    HeadStarts(thread, REPLY);
    var middle := (thread + ":" + REPLY)[|head| + 1..];
    ClashingClash(head, middle);
    var (timestamp, content, taken) := Clashing(head, middle);
    event, subject := ReplyEvent(thread, timestamp, content), taken;
    KeySplits(thread, head, middle, timestamp, content);
  }

  lemma HeadStarts(thread: string, tail: string)
    ensures |Head(thread)| <= |thread|
    ensures thread + ":" + tail == Head(thread) + ":" + (thread + ":" + tail)[|Head(thread)| + 1..]
  {
    HeadSplits(thread);
    var all, n := thread + ":" + tail, |Head(thread)|;
    assert all[n] == ':' && all[..n] == Head(thread);
    assert all == all[..n] + [all[n]] + all[n + 1..];
  }

  // ---- what is shown was fetched ----

  /** A reply that some fetch of these rounds brought. */
  ghost predicate Fetched(rounds: seq<Round>, reply: Reply) {
    exists k, i | 0 <= k < |rounds| && FetchHas(rounds[k], i) :: reply == FetchedReply(rounds[k], i)
  }

  ghost predicate FetchHas(round: Round, i: int) {
    round.FetchReplies? && round.log.Some? && 0 <= i < |round.log.value| && IsReplyOf(round.log.value[i], round.thread)
  }

  ghost function FetchedReply(round: Round, i: int): Reply
    requires FetchHas(round, i)
  {
    ReplyOf(round.log.value[i], round.thread)
  }

  lemma {:induction false} ShowRepliesAdds(w: Watching, replies: seq<Reply>)
    ensures forall s | s in ShowReplies(w, replies).sent :: s in w.sent || (s.SentReply? && s.reply in replies)
  {
    if replies != [] {
      ShowRepliesAdds(w, replies[..|replies| - 1]);
    }
  }

  lemma {:induction false} ShowNoticesAdds(w: Watching, notices: seq<Notice>)
    ensures forall s | s in ShowNotices(w, notices).sent :: s in w.sent || s.SentNotice?
  {
    if notices != [] {
      ShowNoticesAdds(w, notices[..|notices| - 1]);
    }
  }

  lemma {:induction false} ShownWasFetched(start: Option<Log>, rounds: seq<Round>, reply: Reply)
    requires SentReply(reply) in AfterRounds(start, rounds).sent
    ensures Fetched(rounds, reply)
  {
    var n := |rounds| - 1;
    var before := AfterRounds(start, rounds[..n]);
    if SentReply(reply) in before.sent {
      ShownWasFetched(start, rounds[..n], reply);
      var k, i :| 0 <= k < n && FetchHas(rounds[..n][k], i) && reply == FetchedReply(rounds[..n][k], i);
      assert FetchHas(rounds[k], i) && reply == FetchedReply(rounds[k], i);
    } else if rounds[n].EmitNotices? {
      ShowNoticesAdds(before, rounds[n].notices);
      assert false;
    } else {
      var log := rounds[n].log.value;
      ShowRepliesAdds(before, ExtractReplies(log, rounds[n].thread));
      ExtractedAre(log, |log|, rounds[n].thread, reply);
      assert log[..|log|] == log;
      var i :| 0 <= i < |log| && IsReplyOf(log[i], rounds[n].thread) && reply == ReplyOf(log[i], rounds[n].thread);
      assert FetchHas(rounds[n], i);
    }
  }

  // ---- when every reply is shown ----

  ghost predicate ShownUnder(sent: seq<Sent>, key: string) {
    exists reply :: SentReply(reply) in sent && reply.key == key
  }

  /** Whatever came before, a fetched reply of this thread has been shown unless it was there at the start. */
  ghost predicate RepliesGetShown(thread: string) {
    forall start, rounds: seq<Round>, log, event | event in log && IsReplyOf(event, thread) ::
      EventKey(event, thread) !in Started(start).seen
      ==> ShownUnder(AfterRounds(start, rounds + [FetchReplies(thread, Some(log))]).sent, EventKey(event, thread))
  }

  lemma UnreservedIsShown(start: Option<Log>, rounds: seq<Round>, thread: string, log: Log, event: LogEvent)
    requires event in log && IsReplyOf(event, thread) && !Reserved(thread)
    requires EventKey(event, thread) !in Started(start).seen
    ensures ShownUnder(AfterRounds(start, rounds + [FetchReplies(thread, Some(log))]).sent, EventKey(event, thread))
  {
    FetchedAreSeen(start, rounds, thread, log, event);
    var sent := AfterRounds(start, rounds + [FetchReplies(thread, Some(log))]).sent;
    var i :| 0 <= i < |sent| && SentKey(sent[i]) == EventKey(event, thread);
    if sent[i].SentNotice? {
      NoticesKeepOff(event, thread, sent[i].notice.subject);
    }
    assert sent[i] in sent;
  }

  /** A notice with the reply's key, emitted first, hides the reply. */
  lemma TakenIsHidden(thread: string, event: LogEvent, subject: Subject)
    requires IsReplyOf(event, thread) && NoticeKey(subject) == EventKey(event, thread)
    ensures !RepliesGetShown(thread)
  {
    var notices, log := [Notice(subject, "")], [event];
    var before := Watching({NoticeKey(subject)}, [SentNotice(notices[0])]);
    EmittedFirst(notices[0]);
    var rounds := [EmitNotices(notices)];
    var all := rounds + [FetchReplies(thread, Some(log))];
    assert all[..1] == rounds && all[1] == FetchReplies(thread, Some(log));
    var replies := ExtractReplies(log, thread);
    ExtractOne(event, thread);
    assert replies == [ReplyOf(event, thread)] && replies[..0] == [];
    assert ShowReplies(before, replies[..0]) == before;
    assert ShowReplies(before, replies) == before;
    assert AfterRounds(None, all) == before;
    assert event in log && !ShownUnder(before.sent, EventKey(event, thread));
  }

  lemma ExtractOne(event: LogEvent, thread: string)
    requires IsReplyOf(event, thread)
    ensures ExtractReplies([event], thread) == [ReplyOf(event, thread)]
  {
    assert [event][..0] == [];
    assert ExtractReplies([], thread) == [];
  }

  lemma EmittedFirst(notice: Notice)
    ensures AfterRounds(None, [EmitNotices([notice])]) == Watching({NoticeKey(notice.subject)}, [SentNotice(notice)])
  {
    var rounds := [EmitNotices([notice])];
    assert rounds[..0] == [] && [notice][..0] == [];
    assert AfterRounds(None, rounds[..0]) == Started(None);
    assert ShowNotices(Started(None), [notice]) == Show(Started(None), SentNotice(notice));
  }

  /** Every reply of a thread gets shown, in every run, exactly when the thread's name does not begin as notices do. */
  lemma RepliesGetShownIff(thread: string)
    ensures RepliesGetShown(thread) <==> !Reserved(thread)
  {
    if Reserved(thread) {
      var event, subject := ReservedIsTaken(thread);
      TakenIsHidden(thread, event, subject);
    } else {
      forall start, rounds: seq<Round>, log, event | event in log && IsReplyOf(event, thread)
        && EventKey(event, thread) !in Started(start).seen
        ensures ShownUnder(AfterRounds(start, rounds + [FetchReplies(thread, Some(log))]).sent, EventKey(event, thread))
      {
        UnreservedIsShown(start, rounds, thread, log, event);
      }
    }
  }

  // ---- when two replies share a key ----

  /** The colon between them does not tell a timestamp from a content: one may take over from the other. */
  predicate Shifted(ts: string, content: string, ts': string, content': string) {
    |ts| < |ts'| && ts + ":" <= ts' && content == ts'[|ts| + 1..] + ":" + content'
  }

  lemma SameTailIff(ts: string, content: string, ts': string, content': string)
    requires |ts| <= |ts'|
    ensures ts + ":" + content == ts' + ":" + content'
            <==> (ts == ts' && content == content') || Shifted(ts, content, ts', content')
  {
    var s, s' := ts + ":" + content, ts' + ":" + content';
    if s == s' {
      assert ts == s[..|ts|] == s'[..|ts|] == ts'[..|ts|];
      assert content == s[|ts| + 1..] == s'[|ts| + 1..];
      if |ts| < |ts'| {
        assert ':' == s[|ts|] == s'[|ts|] == ts'[|ts|];
        assert ts + ":" == ts'[..|ts| + 1];
        assert s'[|ts| + 1..] == ts'[|ts| + 1..] + ":" + content';
      }
    }
    if Shifted(ts, content, ts', content') {
      assert ts' == ts + ":" + ts'[|ts| + 1..];
    }
  }

  /** Two replies of threads without colons share a key exactly when the thread is one and the texts agree or shift. */
  lemma RepliesShareKeyIff(event: LogEvent, thread: string, event': LogEvent, thread': string)
    requires IsReplyOf(event, thread) && IsReplyOf(event', thread') && ColonFree(thread) && ColonFree(thread')
    requires |Stamp(event)| <= |Stamp(event')|
    ensures EventKey(event, thread) == EventKey(event', thread')
            <==> thread == thread'
                 && ((Stamp(event) == Stamp(event') && ContentOf(event, thread) == ContentOf(event', thread'))
                     || Shifted(Stamp(event), ContentOf(event, thread), Stamp(event'), ContentOf(event', thread')))
  {
    ReplyKeyIs(event, thread);
    ReplyKeyIs(event', thread');
    var tail, tail' := Stamp(event) + ":" + ContentOf(event, thread), Stamp(event') + ":" + ContentOf(event', thread');
    HeadOfJoined(thread, REPLY + ":" + tail);
    HeadOfJoined(thread', REPLY + ":" + tail');
    SameTailIff(Stamp(event), ContentOf(event, thread), Stamp(event'), ContentOf(event', thread'));
    SameRestIff(thread, REPLY, tail, tail');
  }

  lemma SameRestIff(thread: string, action: string, tail: string, tail': string)
    ensures thread + ":" + (action + ":" + tail) == thread + ":" + (action + ":" + tail') <==> tail == tail'
  {
    var n := |thread| + 1 + |action| + 1;
    assert (thread + ":" + (action + ":" + tail))[n..] == tail;
    assert (thread + ":" + (action + ":" + tail'))[n..] == tail';
  }

  /** Threads have no colon in their names, and timestamps are as long as one another. */
  ghost predicate Uniform(rounds: seq<Round>, n: nat) {
    forall k, i | 0 <= k < |rounds| && FetchHas(rounds[k], i) ::
      ColonFree(rounds[k].thread) && |Stamp(rounds[k].log.value[i])| == n
  }

  /** Then a fetched reply is shown itself, content and all, exactly if it was not there at the start. */
  lemma FetchedRepliesAreShown(
    start: Option<Log>, rounds: seq<Round>, thread: string, log: Log, event: LogEvent, n: nat)
    requires event in log && IsReplyOf(event, thread) && !Reserved(thread)
    requires Uniform(rounds + [FetchReplies(thread, Some(log))], n)
    ensures SentReply(ReplyOf(event, thread)) in AfterRounds(start, rounds + [FetchReplies(thread, Some(log))]).sent
            <==> EventKey(event, thread) !in Started(start).seen
  {
    var all := rounds + [FetchReplies(thread, Some(log))];
    var sent := AfterRounds(start, all).sent;
    FetchedAreSeen(start, rounds, thread, log, event);
    if SentReply(ReplyOf(event, thread)) in sent {
      var i :| 0 <= i < |sent| && sent[i] == SentReply(ReplyOf(event, thread));
      assert SentKey(sent[i]) in SentKeys(sent);
    }
    if EventKey(event, thread) !in Started(start).seen {
      UnreservedIsShown(start, rounds, thread, log, event);
      var reply :| SentReply(reply) in sent && reply.key == EventKey(event, thread);
      ShownWasFetched(start, all, reply);
      var k, i :| 0 <= k < |all| && FetchHas(all[k], i) && reply == FetchedReply(all[k], i);
      var m :| 0 <= m < |log| && log[m] == event;
      assert FetchHas(all[|rounds|], m);
      RepliesShareKeyIff(event, thread, all[k].log.value[i], all[k].thread);
    }
  }

  // ---- the watcher ----

  lemma StartKeysJoin(log: Log, more: Log)
    ensures StartKeys(log + more) == StartKeys(log) + StartKeys(more)
  {
    var all := log + more;
    forall i | 0 <= i < |log| && Delivered(log[i]) ensures EventKey(log[i], "") in StartKeys(all) {
      assert all[i] == log[i];
    }
    forall i | 0 <= i < |more| && Delivered(more[i]) ensures EventKey(more[i], "") in StartKeys(all) {
      assert all[|log| + i] == more[i];
    }
  }

  lemma StartKeysOfOne(event: LogEvent)
    ensures StartKeys([event]) == if Delivered(event) then {EventKey(event, "")} else {}
  {
    assert [event][0] == event;
    assert Delivered(event) ==> EventKey([event][0], "") in StartKeys([event]);
  }

  class Watcher {
    var seen: set<string>
    var sent: seq<Sent>

    function Contents(): Watching
      reads this
    {
      Watching(seen, sent)
    }

    constructor ()
      ensures Contents() == Watching({}, [])
    {
      seen, sent := {}, [];
    }

    method MarkEvent(event: LogEvent)
      modifies this
      ensures seen == old(seen) + StartKeys([event]) && sent == old(sent)
    {
      StartKeysOfOne(event);
      if Delivered(event) {
        seen := seen + {EventKey(event, "")};
      }
    }

    method MarkExistingReplies(log: Log)
      modifies this
      ensures Contents() == Watching(old(seen) + StartKeys(log), old(sent))
    {
      for n := 0 to |log|
        invariant seen == old(seen) + StartKeys(log[..n]) && sent == old(sent)
      {
        MarkEvent(log[n]);
        StartKeysJoin(log[..n], [log[n]]);
        assert log[..n + 1] == log[..n] + [log[n]];
      }
      assert log[..|log|] == log;
    }

    method FetchAndEmitReplies(thread: string, log: Option<Log>)
      modifies this
      ensures Contents() == AfterRound(old(Contents()), FetchReplies(thread, log))
    {
      if log.None? {
        return;
      }
      var replies := ExtractReplies(log.value, thread);
      for n := 0 to |replies|
        invariant Contents() == ShowReplies(old(Contents()), replies[..n])
      {
        var reply := replies[n];
        assert replies[..n + 1][..n] == replies[..n];
        if reply.key !in seen {
          seen := seen + {reply.key};
          sent := sent + [SentReply(reply)];
        }
      }
      assert replies[..|replies|] == replies;
    }

    method EmitNoticeList(notices: seq<Notice>)
      modifies this
      ensures Contents() == AfterRound(old(Contents()), EmitNotices(notices))
    {
      for n := 0 to |notices|
        invariant Contents() == ShowNotices(old(Contents()), notices[..n])
      {
        var notice := notices[n];
        assert notices[..n + 1][..n] == notices[..n];
        if NoticeKey(notice.subject) !in seen {
          seen := seen + {NoticeKey(notice.subject)};
          sent := sent + [SentNotice(notice)];
        }
      }
      assert notices[..|notices|] == notices;
    }

    method Watch(start: Option<Log>, rounds: seq<Round>)
      requires Contents() == Watching({}, [])
      modifies this
      ensures Contents() == AfterRounds(start, rounds)
    {
      if start.Some? {
        MarkExistingReplies(start.value);
      }
      assert Contents() == Started(start);
      for n := 0 to |rounds|
        invariant Contents() == AfterRounds(start, rounds[..n])
      {
        assert rounds[..n + 1][..n] == rounds[..n];
        match rounds[n] {
          case FetchReplies(thread, log) => FetchAndEmitReplies(thread, log);
          case EmitNotices(notices) => EmitNoticeList(notices);
        }
      }
      assert rounds[..|rounds|] == rounds;
    }
  }
}

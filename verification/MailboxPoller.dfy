/** The AskHR and Benefits mailbox bot. */
module MailboxPoller {
  import opened Options
  import opened Sequences
  import opened Text

  // What one poll scans, how it moves its checkpoint, and how it turns messages into Jira
  // issues through failures and retries.

  // ----- Messages, rows and the outside world ------------------------------------------

  datatype Mailbox = AskHr | Benefits

  /** Times are whole microseconds. */
  datatype Message = Message(id: string, graphId: string, sender: string, receivedAt: int)

  type IssueKey = nat

  datatype Status = Created | Failed | SkippedInternalDomain

  datatype Row = Row(status: Status, key: Option<IssueKey>)

  datatype ReporterMode = Unset | RaiseOnBehalfOf | ClassicReporterField

  datatype Settings = Settings(lookback: int, trustedDomains: seq<string>, bypassSenders: set<string>)

  datatype ApiReply = Issue(key: IssueKey) | HttpError(status: int) | OtherError

  /** Uploading the .eml may fail before or after Jira has stored it. */
  datatype EmlReply = Stored | StoredThenFailed | NotStored

  /** What the outside world answers while one message is handled. `lookup` is `None` when
      the search raises, and otherwise what it finds for an id with no .eml on record. */
  datatype Replies = Replies(
    lookup: Option<Option<IssueKey>>,
    request: ApiReply,
    classic: ApiReply,
    eml: EmlReply,
    attachmentsRaise: bool)

  datatype Ticket = Ticket(key: IssueKey, mailbox: Mailbox, messageId: string)

  /** The bot's row table and reporter mode, every ticket it ever had created, and the
      issues that carry a message's .eml, which is what the search goes by. */
  datatype World = World(
    rows: map<(Mailbox, string), Row>,
    mode: ReporterMode,
    tickets: seq<Ticket>,
    withEml: map<string, IssueKey>)

  datatype Visit = Visit(mailbox: Mailbox, message: Message, settings: Settings, replies: Replies)

  const EMPTY_WORLD := World(map[], Unset, [], map[])

  // ----- One message ---------------------------------------------------------------------

  function AfterLastAt(s: string): string {
    if s == [] then ""
    else if s[|s| - 1] == '@' then ""
    else AfterLastAt(s[..|s| - 1]) + [s[|s| - 1]]
  }

  predicate ShouldProcess(senderEmail: string, settings: Settings) {
    var sender := Lower(Strip(senderEmail));
    || sender in settings.bypassSenders
    || (if '@' in sender then AfterLastAt(sender) else "") !in settings.trustedDomains
  }

  datatype Outcome = Done(status: Status, key: IssueKey) | Raised

  /** The mode after a successful creation, and the new issue; `None` when it raises, in
      which case nothing was created and the mode stays. */
  function CreateTicket(mode: ReporterMode, r: Replies): Option<(ReporterMode, IssueKey)> {
    match mode
    case ClassicReporterField => if r.classic.Issue? then Some((mode, r.classic.key)) else None
    case RaiseOnBehalfOf => if r.request.Issue? then Some((mode, r.request.key)) else None
    case Unset =>
      if r.request.Issue? then Some((RaiseOnBehalfOf, r.request.key))
      else if r.request.HttpError? && r.request.status in {400, 403} && r.classic.Issue? then
        Some((ClassicReporterField, r.classic.key))
      else None
  }

  /** The .eml goes on first; only then the sender's own attachments, whose listing may raise. */
  function AttachTo(w: World, id: string, key: IssueKey, r: Replies): (World, Outcome) {
    var w' := if r.eml.NotStored? || id in w.withEml then w else w.(withEml := w.withEml[id := key]);
    (w', if !r.eml.Stored? then Done(Failed, key) else if r.attachmentsRaise then Raised else Done(Created, key))
  }

  function LookUp(w: World, id: string, r: Replies): Option<Option<IssueKey>> {
    if r.lookup.None? then None
    else if id in w.withEml then Some(Some(w.withEml[id]))
    else r.lookup
  }

  function CreateOrAttach(w: World, v: Visit, existing: Option<IssueKey>): (World, Outcome) {
    var id := v.message.id;
    if existing.Some? then AttachTo(w, id, existing.value, v.replies)
    else
      match LookUp(w, id, v.replies)
      case None => (w, Raised)
      case Some(Some(key)) => AttachTo(w, id, key, v.replies)
      case Some(None) =>
        match CreateTicket(w.mode, v.replies)
        case None => (w, Raised)
        case Some((mode, key)) =>
          AttachTo(w.(mode := mode, tickets := w.tickets + [Ticket(key, v.mailbox, id)]), id, key, v.replies)
  }

  function RowKey(w: World, mailbox: Mailbox, id: string): Option<IssueKey> {
    if (mailbox, id) in w.rows then w.rows[(mailbox, id)].key else None
  }

  predicate IsCreated(w: World, mailbox: Mailbox, id: string) {
    (mailbox, id) in w.rows && w.rows[(mailbox, id)].status.Created?
  }

  function Recorded(w: World, v: Visit, row: Row): World {
    w.(rows := w.rows[(v.mailbox, v.message.id) := row])
  }

  /** Find or create the issue, attach, and record what came of it. */
  function Processed(w: World, v: Visit): World {
    var existing := RowKey(w, v.mailbox, v.message.id);
    var (w', outcome) := CreateOrAttach(w, v, existing);
    match outcome
    case Done(status, key) => Recorded(w', v, Row(status, Some(key)))
    case Raised => Recorded(w', v, Row(Failed, existing))
  }

  /** What a poll does with one scanned message. */
  function Handle(w: World, v: Visit): World {
    if v.message.id == "" || IsCreated(w, v.mailbox, v.message.id) then w
    else if !ShouldProcess(v.message.sender, v.settings) then Recorded(w, v, Row(SkippedInternalDomain, None))
    else Processed(w, v)
  }

  function HandleAll(w: World, vs: seq<Visit>): World {
    if vs == [] then w else Handle(HandleAll(w, vs[..|vs| - 1]), vs[|vs| - 1])
  }

  // ----- What one visit does ------------------------------------------------------------------

  lemma {:induction false} DomainFollowsLastAt(before: string, domain: string)
    requires '@' !in domain
    ensures AfterLastAt(before + "@" + domain) == domain
  {
    var s := before + "@" + domain;
    if domain == "" {
      assert s[|s| - 1] == '@';
    } else {
      var n := |domain| - 1;
      assert s[..|s| - 1] == before + "@" + domain[..n] && s[|s| - 1] == domain[n] && domain[n] in domain;
      DomainFollowsLastAt(before, domain[..n]);
    }
  }

  /** A message that is new to the mailbox is skipped exactly if its sender is no bypass
      sender and the sender's domain is trusted; a sender without an at sign has a blank
      domain. A skip clears the row and does nothing else. */
  lemma SkippedExactly(w: World, v: Visit, local: string, domain: string)
    requires v.message.id != "" && !IsCreated(w, v.mailbox, v.message.id)
    requires var sender := Lower(Strip(v.message.sender));
      if '@' in sender then sender == local + "@" + domain && '@' !in domain else domain == ""
    ensures var at := (v.mailbox, v.message.id);
      && at in Handle(w, v).rows
      && (Handle(w, v).rows[at].status == SkippedInternalDomain <==>
            Lower(Strip(v.message.sender)) !in v.settings.bypassSenders && domain in v.settings.trustedDomains)
      && Handle(w, v) ==
           if Handle(w, v).rows[at].status == SkippedInternalDomain
           then w.(rows := w.rows[at := Row(SkippedInternalDomain, None)])
           else Processed(w, v)
  {
    if '@' in Lower(Strip(v.message.sender)) {
      DomainFollowsLastAt(local, domain);
    }
  }

  /** The issue Jira makes: by request, unless the bot has settled for the classic call or is
      refused with 400 or 403 before it has settled. */
  ghost function NewIssue(mode: ReporterMode, r: Replies): Option<IssueKey> {
    if mode != ClassicReporterField && r.request.Issue? then Some(r.request.key)
    else if (mode == ClassicReporterField || (mode == Unset && r.request in {HttpError(400), HttpError(403)}))
      && r.classic.Issue? then Some(r.classic.key)
    else None
  }

  /** The issue a visit works on: the row's own, else the one that carries the .eml, else one
      the search finds otherwise, else a new one. */
  ghost function IssueAtHand(w: World, v: Visit): Option<IssueKey> {
    var existing, id := RowKey(w, v.mailbox, v.message.id), v.message.id;
    if existing.Some? || v.replies.lookup.None? then existing
    else if id in w.withEml then Some(w.withEml[id])
    else if v.replies.lookup.value.Some? then v.replies.lookup.value
    else NewIssue(w.mode, v.replies)
  }

  ghost predicate Creates(w: World, v: Visit) {
    && RowKey(w, v.mailbox, v.message.id).None? && v.message.id !in w.withEml
    && v.replies.lookup == Some(None) && NewIssue(w.mode, v.replies).Some?
  }

  /** Everything that processing a message comes to: the row says `created` only if an issue
      was at hand and everything went on it, and otherwise keeps the issue for the next visit
      unless listing the attachments failed; the mode is settled by the first creation. */
  lemma ProcessedExactly(w: World, v: Visit)
    ensures var id, hand, r := v.message.id, IssueAtHand(w, v), v.replies;
      Processed(w, v) == World(
        w.rows[(v.mailbox, id) :=
          if hand.None? then Row(Failed, None)
          else if r.eml != Stored then Row(Failed, hand)
          else if r.attachmentsRaise then Row(Failed, RowKey(w, v.mailbox, id))
          else Row(Created, hand)],
        if !Creates(w, v) || w.mode != Unset then w.mode
        else if r.request.Issue? then RaiseOnBehalfOf else ClassicReporterField,
        w.tickets + (if Creates(w, v) then [Ticket(hand.value, v.mailbox, id)] else []),
        if hand.Some? && r.eml != NotStored && id !in w.withEml then w.withEml[id := hand.value] else w.withEml)
  {
    CreationExactly(w.mode, v.replies);
    assert w.tickets + [] == w.tickets;
  }

  lemma CreationExactly(mode: ReporterMode, r: Replies)
    ensures var made := CreateTicket(mode, r);
      && (made.Some? <==> NewIssue(mode, r).Some?)
      && (made.Some? ==> made.value.1 == NewIssue(mode, r).value)
      && (made.Some? ==>
            made.value.0 ==
              if mode != Unset then mode
              else if r.request.Issue? then RaiseOnBehalfOf else ClassicReporterField)
  {
  }

  /** Over any run the mode is unset exactly as long as no ticket has been created, and it
      never changes after that. */
  lemma {:induction false} ModeSettlesOnce(w: World, vs: seq<Visit>)
    requires w.mode == Unset <==> w.tickets == []
    ensures HandleAll(w, vs).mode == Unset <==> HandleAll(w, vs).tickets == []
    ensures w.mode != Unset ==> HandleAll(w, vs).mode == w.mode
  {
    if vs != [] {
      var v, x := vs[|vs| - 1], HandleAll(w, vs[..|vs| - 1]);
      ModeSettlesOnce(w, vs[..|vs| - 1]);
      ProcessedExactly(x, v);
    }
  }

  /** Handling the messages of one poll after another is handling them in one row. */
  lemma {:induction false} HandleAllAppends(w: World, us: seq<Visit>, vs: seq<Visit>)
    ensures HandleAll(w, us + vs) == HandleAll(HandleAll(w, us), vs)
    decreases |vs|
  {
    if vs == [] {
      assert us + vs == us;
    } else {
      assert (us + vs)[..|us + vs| - 1] == us + vs[..|vs| - 1];
      HandleAllAppends(w, us, vs[..|vs| - 1]);
    }
  }

  // ----- Tickets over any run of polls ------------------------------------------------------

  function TicketsFor(ts: seq<Ticket>, mailbox: Mailbox, id: string): nat {
    if ts == [] then 0
    else
      var t := ts[|ts| - 1];
      TicketsFor(ts[..|ts| - 1], mailbox, id) + (if t.mailbox == mailbox && t.messageId == id then 1 else 0)
  }

  /** The one way a known issue is forgotten: a sender whose domain has become trusted is
      skipped, and the skip clears the key of a row whose issue carries no .eml. */
  predicate LosesKey(w: World, v: Visit) {
    && v.message.id != "" && !IsCreated(w, v.mailbox, v.message.id)
    && !ShouldProcess(v.message.sender, v.settings)
    && RowKey(w, v.mailbox, v.message.id).Some?
    && v.message.id !in w.withEml
  }

  predicate KeysKept(w: World, vs: seq<Visit>) {
    vs == [] || (KeysKept(w, vs[..|vs| - 1]) && !LosesKey(HandleAll(w, vs[..|vs| - 1]), vs[|vs| - 1]))
  }

  /** A ticket that exists can be found again, through its row or through the search. */
  ghost predicate Findable(w: World, mailbox: Mailbox, id: string) {
    && TicketsFor(w.tickets, mailbox, id) <= 1
    && (TicketsFor(w.tickets, mailbox, id) == 1 ==> id in w.withEml || RowKey(w, mailbox, id).Some?)
    && (IsCreated(w, mailbox, id) ==> id in w.withEml)
  }

  lemma TicketsForExtends(ts: seq<Ticket>, t: Ticket, mailbox: Mailbox, id: string)
    ensures TicketsFor(ts + [t], mailbox, id) ==
      TicketsFor(ts, mailbox, id) + if t.mailbox == mailbox && t.messageId == id then 1 else 0
  {
    assert (ts + [t])[..|ts + [t]| - 1] == ts;
  }

  /** A ticket is created only when the row holds no key and no issue carries the .eml,
      and afterwards either the caller learns the key or the .eml is in place. */
  lemma CreationIsGuarded(w: World, v: Visit, existing: Option<IssueKey>)
    ensures var (w', outcome) := CreateOrAttach(w, v, existing);
      && w'.rows == w.rows && (forall id :: id in w.withEml ==> id in w'.withEml)
      && (outcome == Raised || outcome.status != SkippedInternalDomain)
      && (outcome.Done? && outcome.status.Created? ==> v.message.id in w'.withEml)
      && (w'.tickets == w.tickets
          || (existing.None? && v.message.id !in w.withEml && (outcome.Done? || v.message.id in w'.withEml)
              && exists key :: w'.tickets == w.tickets + [Ticket(key, v.mailbox, v.message.id)]))
  {
    if existing.None? && LookUp(w, v.message.id, v.replies) == Some(None) && CreateTicket(w.mode, v.replies).Some? {
      var key := CreateTicket(w.mode, v.replies).value.1;
      assert CreateOrAttach(w, v, existing).0.tickets == w.tickets + [Ticket(key, v.mailbox, v.message.id)];
    }
  }

  predicate IsProcessed(w: World, v: Visit) {
    v.message.id != "" && !IsCreated(w, v.mailbox, v.message.id) && ShouldProcess(v.message.sender, v.settings)
  }

  lemma CreationKeepsFindable(w: World, v: Visit, mailbox: Mailbox, id: string)
    requires Findable(w, mailbox, id)
    ensures Findable(Processed(w, v), mailbox, id)
  {
    var existing := RowKey(w, v.mailbox, v.message.id);
    var (w', outcome) := CreateOrAttach(w, v, existing);
    var n := TicketsFor(w.tickets, mailbox, id);
    assert TicketsFor(w'.tickets, mailbox, id) <= 1
      && (TicketsFor(w'.tickets, mailbox, id) == 1 ==> n == 1 || outcome.Done? || id in w'.withEml)
      && (TicketsFor(w'.tickets, mailbox, id) > n ==> v.mailbox == mailbox && v.message.id == id)
      && (forall x :: x in w.withEml ==> x in w'.withEml) && w'.rows == w.rows
      && (outcome.Done? && outcome.status.Created? ==> v.message.id in w'.withEml)
    by {
      CreationIsGuarded(w, v, existing);
      if w'.tickets != w.tickets {
        var key :| w'.tickets == w.tickets + [Ticket(key, v.mailbox, v.message.id)];
        TicketsForExtends(w.tickets, Ticket(key, v.mailbox, v.message.id), mailbox, id);
      }
    }
    var row := match outcome case Done(status, key) => Row(status, Some(key)) case Raised => Row(Failed, existing);
    assert Processed(w, v) == Recorded(w', v, row);
  }

  lemma HandleKeepsFindable(w: World, v: Visit, mailbox: Mailbox, id: string)
    requires Findable(w, mailbox, id) && (About(v, mailbox, id) ==> !LosesKey(w, v))
    ensures Findable(Handle(w, v), mailbox, id)
  {
    if IsProcessed(w, v) {
      CreationKeepsFindable(w, v, mailbox, id);
    }
  }

  /** Polls of a mailbox create at most one ticket for a Message-ID, whatever fails and
      however often it is retried, as long as no visit loses a key. */
  lemma {:induction false} AtMostOneTicket(vs: seq<Visit>, mailbox: Mailbox, id: string)
    requires KeysKept(EMPTY_WORLD, vs)
    ensures Findable(HandleAll(EMPTY_WORLD, vs), mailbox, id)
  {
    if vs != [] {
      AtMostOneTicket(vs[..|vs| - 1], mailbox, id);
      HandleKeepsFindable(HandleAll(EMPTY_WORLD, vs[..|vs| - 1]), vs[|vs| - 1], mailbox, id);
    }
  }

  predicate About(v: Visit, mailbox: Mailbox, id: string) {
    v.mailbox == mailbox && v.message.id == id
  }

  predicate Taken(v: Visit) {
    ShouldProcess(v.message.sender, v.settings)
  }

  lemma {:induction false} KeyMeansProcessed(vs: seq<Visit>, mailbox: Mailbox, id: string)
    requires RowKey(HandleAll(EMPTY_WORLD, vs), mailbox, id).Some?
    ensures exists i :: 0 <= i < |vs| && About(vs[i], mailbox, id) && Taken(vs[i])
  {
    var us, v := vs[..|vs| - 1], vs[|vs| - 1];
    var w := HandleAll(EMPTY_WORLD, us);
    CreationIsGuarded(w, v, RowKey(w, v.mailbox, v.message.id));
    if RowKey(w, mailbox, id).Some? {
      KeyMeansProcessed(us, mailbox, id);
      var i :| 0 <= i < |us| && About(us[i], mailbox, id) && Taken(us[i]);
      assert vs[i] == us[i];
    } else {
      assert vs[|vs| - 1] == v;
    }
  }

  // ----- Exactly when a message can get two tickets --------------------------------------------

  /** The message has been taken for processing and refused later. */
  ghost predicate Dropped(vs: seq<Visit>, mailbox: Mailbox, id: string) {
    exists i, j :: 0 <= i < j < |vs| && TakenThenRefused(vs, mailbox, id, i, j)
  }

  predicate TakenThenRefused(vs: seq<Visit>, mailbox: Mailbox, id: string, i: int, j: int)
    requires 0 <= i < j < |vs|
  {
    About(vs[i], mailbox, id) && Taken(vs[i]) && About(vs[j], mailbox, id) && !Taken(vs[j])
  }

  /** The message is taken, refused, and taken again: its sender's domain has become trusted
      between two visits, and not for good. */
  ghost predicate Flips(vs: seq<Visit>, mailbox: Mailbox, id: string) {
    exists i, j, k :: 0 <= i < j < k < |vs| && FlipsAt(vs, mailbox, id, i, j, k)
  }

  predicate FlipsAt(vs: seq<Visit>, mailbox: Mailbox, id: string, i: int, j: int, k: int)
    requires 0 <= i < j < k < |vs|
  {
    TakenThenRefused(vs, mailbox, id, i, j) && About(vs[k], mailbox, id) && Taken(vs[k])
  }

  /** Only a visit that takes the message can create a ticket for it. */
  lemma OthersCreateNone(w: World, v: Visit, mailbox: Mailbox, id: string)
    requires !(About(v, mailbox, id) && Taken(v))
    ensures TicketsFor(Handle(w, v).tickets, mailbox, id) == TicketsFor(w.tickets, mailbox, id)
  {
    var existing := RowKey(w, v.mailbox, v.message.id);
    CreationIsGuarded(w, v, existing);
    var (w', _) := CreateOrAttach(w, v, existing);
    if w'.tickets != w.tickets {
      var key :| w'.tickets == w.tickets + [Ticket(key, v.mailbox, v.message.id)];
      TicketsForExtends(w.tickets, Ticket(key, v.mailbox, v.message.id), mailbox, id);
    }
  }

  lemma FlipsExtend(us: seq<Visit>, v: Visit, mailbox: Mailbox, id: string)
    ensures Flips(us, mailbox, id) ==> Flips(us + [v], mailbox, id)
    ensures Dropped(us, mailbox, id) && About(v, mailbox, id) && Taken(v) ==> Flips(us + [v], mailbox, id)
    ensures Dropped(us, mailbox, id) ==> Dropped(us + [v], mailbox, id)
  {
    var vs := us + [v];
    if Flips(us, mailbox, id) {
      var i, j, k :| 0 <= i < j < k < |us| && FlipsAt(us, mailbox, id, i, j, k);
      assert FlipsAt(vs, mailbox, id, i, j, k);
    }
    if Dropped(us, mailbox, id) {
      var i, j :| 0 <= i < j < |us| && TakenThenRefused(us, mailbox, id, i, j);
      assert TakenThenRefused(vs, mailbox, id, i, j);
      if About(v, mailbox, id) && Taken(v) {
        assert FlipsAt(vs, mailbox, id, i, j, |us|);
      }
    }
  }

  lemma LosingDrops(us: seq<Visit>, v: Visit, mailbox: Mailbox, id: string)
    requires About(v, mailbox, id) && LosesKey(HandleAll(EMPTY_WORLD, us), v)
    ensures Dropped(us + [v], mailbox, id)
  {
    KeyMeansProcessed(us, mailbox, id);
    var i :| 0 <= i < |us| && About(us[i], mailbox, id) && Taken(us[i]);
    assert TakenThenRefused(us + [v], mailbox, id, i, |us|);
  }

  /** Without a flip there is at most one ticket, and until the message is dropped it can be
      found. */
  lemma {:induction false} FindableUntilDropped(vs: seq<Visit>, mailbox: Mailbox, id: string)
    requires !Flips(vs, mailbox, id)
    ensures TicketsFor(HandleAll(EMPTY_WORLD, vs).tickets, mailbox, id) <= 1
    ensures !Dropped(vs, mailbox, id) ==> Findable(HandleAll(EMPTY_WORLD, vs), mailbox, id)
  {
    if vs != [] {
      var us, v := vs[..|vs| - 1], vs[|vs| - 1];
      assert vs == us + [v];
      FlipsExtend(us, v, mailbox, id);
      FindableUntilDropped(us, mailbox, id);
      var w := HandleAll(EMPTY_WORLD, us);
      if !(About(v, mailbox, id) && Taken(v)) {
        OthersCreateNone(w, v, mailbox, id);
      }
      if About(v, mailbox, id) && LosesKey(w, v) {
        LosingDrops(us, v, mailbox, id);
      } else if !Dropped(us, mailbox, id) {
        HandleKeepsFindable(w, v, mailbox, id);
      }
    }
  }

  /** In any run in which no message is taken, refused and taken again, a mailbox has at most
      one ticket created for a Message-ID. */
  lemma NoDuplicateTickets(vs: seq<Visit>, mailbox: Mailbox, id: string)
    requires !Flips(vs, mailbox, id)
    ensures TicketsFor(HandleAll(EMPTY_WORLD, vs).tickets, mailbox, id) <= 1
  {
    FindableUntilDropped(vs, mailbox, id);
  }

  /** The same visits, with any answers of the outside world. */
  ghost predicate SameButReplies(us: seq<Visit>, vs: seq<Visit>) {
    |us| == |vs| && forall n {:trigger SameVisit(us[n], vs[n])} :: 0 <= n < |vs| ==> SameVisit(us[n], vs[n])
  }

  predicate SameVisit(u: Visit, v: Visit) {
    u == v.(replies := u.replies)
  }

  /** The search finds nothing, an issue is created, and its upload fails. */
  const CREATES := Replies(Some(None), Issue(0), Issue(0), NotStored, false)

  /** The search raises. */
  const RAISES := Replies(None, OtherError, OtherError, NotStored, false)

  /** Two visits create, all others raise. */
  function Sabotaged(vs: seq<Visit>, i: int, k: int): (us: seq<Visit>)
    ensures |us| == |vs|
    ensures forall n :: 0 <= n < |vs| ==> us[n] == vs[n].(replies := if n == i || n == k then CREATES else RAISES)
  {
    seq(|vs|, n requires 0 <= n < |vs| => vs[n].(replies := if n == i || n == k then CREATES else RAISES))
  }

  /** No .eml is on record anywhere, and the message's row is not a created one. */
  predicate Unattached(w: World, mailbox: Mailbox, id: string) {
    w.withEml == map[] && !IsCreated(w, mailbox, id)
  }

  lemma RaisingVisit(w: World, v: Visit, mailbox: Mailbox, id: string)
    requires Unattached(w, mailbox, id) && v.replies == RAISES
    ensures var w' := Handle(w, v);
      && Unattached(w', mailbox, id) && w'.tickets == w.tickets
      && (RowKey(w, mailbox, id).None? ==> RowKey(w', mailbox, id).None?)
      && (About(v, mailbox, id) && !Taken(v) && id != "" ==> RowKey(w', mailbox, id).None?)
  {
  }

  lemma CreatingVisit(w: World, v: Visit, mailbox: Mailbox, id: string)
    requires Unattached(w, mailbox, id) && RowKey(w, mailbox, id).None? && id != ""
    requires About(v, mailbox, id) && Taken(v) && v.replies == CREATES
    ensures Unattached(Handle(w, v), mailbox, id)
    ensures TicketsFor(Handle(w, v).tickets, mailbox, id) == TicketsFor(w.tickets, mailbox, id) + 1
  {
    assert IsProcessed(w, v);
    assert CreateTicket(w.mode, CREATES).Some? && CreateTicket(w.mode, CREATES).value.1 == 0;
    assert Handle(w, v).tickets == w.tickets + [Ticket(0, mailbox, id)];
    TicketsForExtends(w.tickets, Ticket(0, mailbox, id), mailbox, id);
  }

  /** Where the run stands after `n` visits: nothing created, one ticket, one ticket whose key
      has been cleared, two tickets. */
  predicate Stage(w: World, mailbox: Mailbox, id: string, i: int, j: int, k: int, n: nat) {
    var tickets := TicketsFor(w.tickets, mailbox, id);
    && Unattached(w, mailbox, id)
    && (n <= i || j < n <= k ==> RowKey(w, mailbox, id).None?)
    && tickets == (if n <= i then 0 else if n <= k then 1 else 2)
  }

  lemma HandleAllTakes(w: World, us: seq<Visit>, n: nat)
    requires 0 < n <= |us|
    ensures HandleAll(w, us[..n]) == Handle(HandleAll(w, us[..n - 1]), us[n - 1])
  {
    assert us[..n][..n - 1] == us[..n - 1];
  }

  lemma {:induction false} StageIsReached(
      vs: seq<Visit>, mailbox: Mailbox, id: string, i: int, j: int, k: int, n: nat)
    requires id != "" && 0 <= i < j < k < |vs| && FlipsAt(vs, mailbox, id, i, j, k) && n <= |vs|
    ensures Stage(HandleAll(EMPTY_WORLD, Sabotaged(vs, i, k)[..n]), mailbox, id, i, j, k, n)
  {
    if n > 0 {
      var us := Sabotaged(vs, i, k);
      StageIsReached(vs, mailbox, id, i, j, k, n - 1);
      HandleAllTakes(EMPTY_WORLD, us, n);
      StageStep(HandleAll(EMPTY_WORLD, us[..n - 1]), us[n - 1], mailbox, id, i, j, k, n - 1);
    }
  }

  lemma StageStep(w: World, v: Visit, mailbox: Mailbox, id: string, i: int, j: int, k: int, n: nat)
    requires id != "" && 0 <= i < j < k && Stage(w, mailbox, id, i, j, k, n)
    requires v.replies == if n == i || n == k then CREATES else RAISES
    requires n == i || n == k ==> About(v, mailbox, id) && Taken(v)
    requires n == j ==> About(v, mailbox, id) && !Taken(v)
    ensures Stage(Handle(w, v), mailbox, id, i, j, k, n + 1)
  {
    if n == i || n == k {
      CreatingVisit(w, v, mailbox, id);
    } else {
      RaisingVisit(w, v, mailbox, id);
    }
  }

  /** Whatever the outside world answers, the visits of a run create at most one ticket for a
      Message-ID, exactly if the run does not take, refuse and take it again. */
  lemma OneTicketIff(vs: seq<Visit>, mailbox: Mailbox, id: string)
    requires id != ""
    ensures (forall us :: SameButReplies(us, vs) ==> TicketsFor(HandleAll(EMPTY_WORLD, us).tickets, mailbox, id) <= 1)
      <==> !Flips(vs, mailbox, id)
  {
    if Flips(vs, mailbox, id) {
      var i, j, k :| 0 <= i < j < k < |vs| && FlipsAt(vs, mailbox, id, i, j, k);
      var us := Sabotaged(vs, i, k);
      StageIsReached(vs, mailbox, id, i, j, k, |vs|);
      assert us[..|vs|] == us && SameButReplies(us, vs);
    } else {
      forall us | SameButReplies(us, vs) ensures TicketsFor(HandleAll(EMPTY_WORLD, us).tickets, mailbox, id) <= 1 {
        if Flips(us, mailbox, id) {
          SameFlips(us, vs, mailbox, id);
        }
        NoDuplicateTickets(us, mailbox, id);
      }
    }
  }

  lemma SameFlips(us: seq<Visit>, vs: seq<Visit>, mailbox: Mailbox, id: string)
    requires SameButReplies(us, vs) && Flips(us, mailbox, id)
    ensures Flips(vs, mailbox, id)
  {
    var i, j, k :| 0 <= i < j < k < |us| && FlipsAt(us, mailbox, id, i, j, k);
    assert SameVisit(us[i], vs[i]) && SameVisit(us[j], vs[j]) && SameVisit(us[k], vs[k]);
    assert FlipsAt(vs, mailbox, id, i, j, k);
  }

  predicate Retries(u: Visit, v: Visit) {
    u.mailbox == v.mailbox && u.message == v.message
  }

  /** A visit that loses the key of a created ticket leaves a world in which the next visit,
      under trusted domains that take the sender again, can create a second. */
  lemma LostKeyAllowsDuplicate(w: World, v: Visit, domains: seq<string>) returns (u: Visit)
    requires LosesKey(w, v) && TicketsFor(w.tickets, v.mailbox, v.message.id) == 1
    requires ShouldProcess(v.message.sender, v.settings.(trustedDomains := domains))
    ensures Retries(u, v) && u.settings == v.settings.(trustedDomains := domains)
    ensures TicketsFor(Handle(Handle(w, v), u).tickets, v.mailbox, v.message.id) == 2
  {
    var replies := CREATES;
    u := v.(settings := v.settings.(trustedDomains := domains), replies := replies);
    var x := Handle(w, v);
    assert x == Recorded(w, v, Row(SkippedInternalDomain, None));
    assert IsProcessed(x, u);
    assert CreateTicket(x.mode, replies).Some?;
    TicketsForExtends(x.tickets, Ticket(0, v.mailbox, v.message.id), v.mailbox, v.message.id);
    assert Handle(x, u).tickets == x.tickets + [Ticket(0, v.mailbox, v.message.id)];
  }

  /** And a run comes to that: the upload fails, the sender's domain is trusted for one poll,
      and then no longer. */
  lemma TrustedBetweenRetriesDuplicates(m: Message, mailbox: Mailbox, on: Settings, domains: seq<string>)
      returns (vs: seq<Visit>)
    requires m.id != "" && ShouldProcess(m.sender, on) && !ShouldProcess(m.sender, on.(trustedDomains := domains))
    ensures |vs| == 3 && forall v :: v in vs ==> v.mailbox == mailbox && v.message == m
    ensures vs[0].settings == vs[2].settings == on && vs[1].settings == on.(trustedDomains := domains)
    ensures TicketsFor(HandleAll(EMPTY_WORLD, vs).tickets, mailbox, m.id) == 2
  {
    var taken, refused := Visit(mailbox, m, on, CREATES), Visit(mailbox, m, on.(trustedDomains := domains), CREATES);
    var visits := [taken, refused, taken];
    assert FlipsAt(visits, mailbox, m.id, 0, 1, 2);
    vs := Sabotaged(visits, 0, 2);
    StageIsReached(visits, mailbox, m.id, 0, 1, 2, 3);
    assert vs[..3] == vs;
  }

  /** A row that says `created` never changes again. */
  lemma {:induction false} CreatedIsFinal(w: World, vs: seq<Visit>, mailbox: Mailbox, id: string)
    requires IsCreated(w, mailbox, id)
    ensures IsCreated(HandleAll(w, vs), mailbox, id)
    ensures HandleAll(w, vs).rows[(mailbox, id)] == w.rows[(mailbox, id)]
  {
    if vs != [] {
      var us, v := vs[..|vs| - 1], vs[|vs| - 1];
      var x := HandleAll(w, us);
      CreatedIsFinal(w, us, mailbox, id);
      CreationIsGuarded(x, v, RowKey(x, v.mailbox, v.message.id));
    }
  }

  /** The search goes by Message-ID and project, not by mailbox: once one mailbox's issue
      carries the .eml, no poll of either mailbox creates another ticket for that id. The
      second mailbox is therefore attached to the first one's issue and gets none. */
  lemma {:induction false} FiledOnceForBothMailboxes(w: World, vs: seq<Visit>, mailbox: Mailbox, id: string)
    requires id in w.withEml
    ensures id in HandleAll(w, vs).withEml
    ensures TicketsFor(HandleAll(w, vs).tickets, mailbox, id) == TicketsFor(w.tickets, mailbox, id)
  {
    if vs != [] {
      var us, v := vs[..|vs| - 1], vs[|vs| - 1];
      var x := HandleAll(w, us);
      FiledOnceForBothMailboxes(w, us, mailbox, id);
      var existing := RowKey(x, v.mailbox, v.message.id);
      CreationIsGuarded(x, v, existing);
      var (x', _) := CreateOrAttach(x, v, existing);
      if x'.tickets != x.tickets {
        var key :| x'.tickets == x.tickets + [Ticket(key, v.mailbox, v.message.id)];
        TicketsForExtends(x.tickets, Ticket(key, v.mailbox, v.message.id), mailbox, id);
      }
    }
  }

  // ----- Retries by hand -----------------------------------------------------------------------

  /** An administrator's retry of one row, created or not: `fetched` is false when the message
      can no longer be read. The visit's settings play no part. */
  function Retried(w: World, v: Visit, fetched: bool): World {
    if (v.mailbox, v.message.id) !in w.rows then w
    else if fetched then Processed(w, v)
    else Recorded(w, v, Row(Failed, RowKey(w, v.mailbox, v.message.id)))
  }

  /** What happens between the polls of other messages, one thing at a time. */
  datatype Action = Visited(visit: Visit) | Retry(visit: Visit, fetched: bool) | ResetMode

  function Act(w: World, a: Action): World {
    match a
    case Visited(v) => Handle(w, v)
    case Retry(v, fetched) => Retried(w, v, fetched)
    case ResetMode => w.(mode := Unset)
  }

  function ActAll(w: World, actions: seq<Action>): World {
    if actions == [] then w else Act(ActAll(w, actions[..|actions| - 1]), actions[|actions| - 1])
  }

  predicate NoKeyLost(w: World, actions: seq<Action>) {
    actions == [] ||
    (var before, a := actions[..|actions| - 1], actions[|actions| - 1];
    NoKeyLost(w, before) && (a.Visited? ==> !LosesKey(ActAll(w, before), a.visit)))
  }

  /** Retries and resets between the visits do not change it: as long as no skip loses a key,
      a mailbox has at most one ticket for a Message-ID. */
  lemma {:induction false} RetriesCreateNoSecondTicket(actions: seq<Action>, mailbox: Mailbox, id: string)
    requires NoKeyLost(EMPTY_WORLD, actions)
    ensures Findable(ActAll(EMPTY_WORLD, actions), mailbox, id)
  {
    if actions != [] {
      var before, a := ActAll(EMPTY_WORLD, actions[..|actions| - 1]), actions[|actions| - 1];
      RetriesCreateNoSecondTicket(actions[..|actions| - 1], mailbox, id);
      match a {
        case Visited(v) => HandleKeepsFindable(before, v, mailbox, id);
        case Retry(v, _) => CreationKeepsFindable(before, v, mailbox, id);
        case ResetMode =>
      }
    }
  }

  /** But a retry does not spare a row that says `created`: it stays so exactly when the
      message can be read and everything is attached again. */
  lemma RetryKeepsCreatedIff(w: World, v: Visit, fetched: bool)
    requires IsCreated(w, v.mailbox, v.message.id) && RowKey(w, v.mailbox, v.message.id).Some?
    ensures IsCreated(Retried(w, v, fetched), v.mailbox, v.message.id) <==>
      fetched && v.replies.eml.Stored? && !v.replies.attachmentsRaise
    ensures RowKey(Retried(w, v, fetched), v.mailbox, v.message.id) == RowKey(w, v.mailbox, v.message.id)
    ensures Retried(w, v, fetched).tickets == w.tickets
  {
  }

  // ----- What a poll scans ---------------------------------------------------------------------

  const SECOND := 1_000_000
  const MAX_CATCHUP := 24 * 3600 * SECOND

  /** The lower bound of the window: lookback before the checkpoint, or before now when
      there is none, but never further back than the catch-up cap. */
  function Since(checkpoint: Option<int>, now: int, lookback: int): int {
    var since := (if checkpoint.Some? then checkpoint.value else now) - lookback;
    if since < now - MAX_CATCHUP then now - MAX_CATCHUP else since
  }

  /** The bound as it is sent, cut to a whole second. */
  function SentBound(since: int): int {
    since / SECOND * SECOND
  }

  /** The window reaches back by the lookback, but no more than a day. */
  lemma SinceExactly(checkpoint: Option<int>, now: int, lookback: int)
    ensures var since := Since(checkpoint, now, lookback);
      var from := (if checkpoint.Some? then checkpoint.value else now) - lookback;
      && since >= from && since >= now - 86_400_000_000
      && (since == from || since == now - 86_400_000_000)
  {
  }

  /** The bound is the last whole second of the window's start. */
  lemma SentBoundExactly(since: int)
    ensures SentBound(since) <= since < SentBound(since) + 1_000_000 && SentBound(since) % 1_000_000 == 0
  {
  }

  function Filter(ms: seq<Message>, keep: Message -> bool): (r: seq<Message>)
    ensures forall m :: m in r <==> m in ms && keep(m)
  {
    if ms == [] then []
    else
      var front, last := ms[..|ms| - 1], ms[|ms| - 1];
      assert ms == front + [last];
      Filter(front, keep) + (if keep(last) then [last] else [])
  }

  /** What is scanned comes in the order in which it is read. */
  lemma {:induction false} FilterPicks(ms: seq<Message>, keep: Message -> bool) returns (places: seq<nat>)
    ensures Picks(places, ms, Filter(ms, keep))
  {
    places := [];
    if ms != [] {
      var front, last := ms[..|ms| - 1], ms[|ms| - 1];
      assert ms == front + [last];
      places := FilterPicks(front, keep);
      PicksGrow(places, front, Filter(front, keep), last);
      places := if keep(last) then places + [|front|] else places;
    }
  }

  /** One attempt to poll, with the whole content of the two folders as they are read;
      `None` when a read raises. */
  datatype Attempt = Attempt(
    now: int,
    inboxAt: int,
    internalAt: int,
    inbox: Option<seq<Message>>,
    internal: Option<seq<Message>>)

  predicate IsBypass(m: Message, settings: Settings) {
    Lower(Strip(m.sender)) in settings.bypassSenders
  }

  /** Blanks around a sender's address and its case do not matter. */
  lemma BypassIgnoresCase(m: Message, settings: Settings, left: string, core: string, right: string)
    requires m.sender == left + core + right && forall c :: c in left || c in right ==> IsSpace(c)
    requires core != "" && Trimmed(core, Blanks)
    ensures IsBypass(m, settings) <==> Lower(core) in settings.bypassSenders
  {
    TrimTakesEnds(left, core, right, Blanks);
  }

  function Scanned(checkpoint: Option<int>, a: Attempt, settings: Settings): seq<Message> {
    var bound := SentBound(Since(checkpoint, a.now, settings.lookback));
    if a.inbox.None? then [] else
    Filter(a.inbox.value, (m: Message) => m.receivedAt >= bound)
    + (if a.internal.None? then [] else
       Filter(a.internal.value, (m: Message) => m.receivedAt >= bound && IsBypass(m, settings)))
  }

  /** The latest receipt among the messages that carry a Message-ID. */
  function Latest(ms: seq<Message>): (r: Option<int>)
    ensures r.Some? ==> exists m :: m in ms && m.id != "" && m.receivedAt == r.value
    ensures forall m :: m in ms && m.id != "" ==> r.Some? && m.receivedAt <= r.value
  {
    if ms == [] then None
    else
      var before := Latest(ms[..|ms| - 1]);
      var m := ms[|ms| - 1];
      assert ms == ms[..|ms| - 1] + [m];
      if m.id != "" && (before.None? || m.receivedAt > before.value) then
        assert m in ms;
        Some(m.receivedAt)
      else before
  }

  /** A failed Inbox read raises; a failed read of Internal Requests holds the checkpoint. */
  function NextCheckpoint(checkpoint: Option<int>, a: Attempt, settings: Settings): Option<int> {
    if a.inbox.None? || a.internal.None? then checkpoint
    else
      var latest := Latest(Scanned(checkpoint, a, settings));
      if latest.Some? then latest else checkpoint
  }

  function CheckpointAfter(checkpoint: Option<int>, attempts: seq<Attempt>, settings: Settings): Option<int> {
    if attempts == [] then checkpoint
    else
      var before := CheckpointAfter(checkpoint, attempts[..|attempts| - 1], settings);
      NextCheckpoint(before, attempts[|attempts| - 1], settings)
  }

  // ----- Coverage --------------------------------------------------------------------------------

  datatype Folder = Inbox | InternalRequests

  /** A message lies in one folder from when it becomes visible until it is removed. */
  datatype Stay = Stay(folder: Folder, visibleAt: int, goneAt: Option<int>)

  type Box = map<Message, Stay>

  predicate Present(stay: Stay, folder: Folder, at: int) {
    stay.folder == folder && stay.visibleAt <= at && (stay.goneAt.Some? ==> at < stay.goneAt.value)
  }

  /** The reads return what lies in the folders, and nothing is visible before receipt. */
  ghost predicate Faithful(box: Box, a: Attempt) {
    && a.now <= a.inboxAt <= a.internalAt
    && (a.inbox.Some? ==> forall m :: m in a.inbox.value <==> m in box && Present(box[m], Inbox, a.inboxAt))
    && (a.internal.Some? ==> forall m :: m in a.internal.value <==>
      m in box && Present(box[m], InternalRequests, a.internalAt))
  }

  ghost predicate Delivered(box: Box) {
    forall m :: m in box ==> m.receivedAt <= box[m].visibleAt
  }

  ghost predicate Advances(a: Attempt) {
    a.inbox.Some? && a.internal.Some?
  }

  /** The checkpoint never runs ahead of the last read of the polls that moved it. */
  lemma {:induction false} CheckpointIsBehindReads(
      box: Box, cp: Option<int>, attempts: seq<Attempt>, settings: Settings, bound: int)
    requires Delivered(box) && (cp.Some? ==> cp.value <= bound)
    requires forall a :: a in attempts ==> Faithful(box, a) && (Advances(a) ==> a.internalAt <= bound)
    ensures var after := CheckpointAfter(cp, attempts, settings);
      (cp.Some? ==> after.Some?) && (after.Some? ==> after.value <= bound)
  {
    if attempts != [] {
      assert attempts == attempts[..|attempts| - 1] + [attempts[|attempts| - 1]];
      CheckpointIsBehindReads(box, cp, attempts[..|attempts| - 1], settings, bound);
    }
  }

  /** The poll reads the folder, and says so: a failed Inbox read ends it. */
  predicate Reads(a: Attempt, folder: Folder) {
    a.inbox.Some? && (folder.InternalRequests? ==> a.internal.Some?)
  }

  function ReadAt(a: Attempt, folder: Folder): int {
    if folder.Inbox? then a.inboxAt else a.internalAt
  }

  /** A message that this poll can see in one of its folders, and takes from there. */
  ghost predicate Sees(box: Box, a: Attempt, settings: Settings, m: Message, folder: Folder) {
    && m in box && Present(box[m], folder, ReadAt(a, folder)) && Faithful(box, a) && Reads(a, folder)
    && (folder.InternalRequests? ==> IsBypass(m, settings))
  }

  lemma ScannedFromBound(box: Box, cp: Option<int>, a: Attempt, settings: Settings, m: Message, folder: Folder)
    requires Sees(box, a, settings, m, folder)
    ensures m in Scanned(cp, a, settings) <==> SentBound(Since(cp, a.now, settings.lookback)) <= m.receivedAt
  {
    var bound := SentBound(Since(cp, a.now, settings.lookback));
    if m.receivedAt >= bound {
      if folder.Inbox? {
        assert m in Filter(a.inbox.value, (x: Message) => x.receivedAt >= bound);
      } else {
        assert m in Filter(a.internal.value, (x: Message) => x.receivedAt >= bound && IsBypass(x, settings));
      }
    }
  }

  lemma SentBoundGrows(s: int, t: int)
    requires s <= t
    ensures SentBound(s) <= SentBound(t)
  {
    assert s / SECOND <= t / SECOND;
  }

  lemma LaterOfTwoBounds(cp: int, now: int, lookback: int, at: int)
    ensures SentBound(Since(Some(cp), now, lookback)) <= at <==>
      SentBound(cp - lookback) <= at && SentBound(now - MAX_CATCHUP) <= at
  {
    if cp - lookback < now - MAX_CATCHUP {
      SentBoundGrows(cp - lookback, now - MAX_CATCHUP);
    } else {
      SentBoundGrows(now - MAX_CATCHUP, cp - lookback);
    }
  }

  /** Whether a poll scans a message that it can see depends on the message's age and on how
      far the checkpoint has moved past it, and on nothing else. */
  lemma MailIsScannedIff(box: Box, cp: int, a: Attempt, settings: Settings, m: Message, folder: Folder)
    requires Sees(box, a, settings, m, folder)
    ensures m in Scanned(Some(cp), a, settings) <==>
      SentBound(cp - settings.lookback) <= m.receivedAt && SentBound(a.now - MAX_CATCHUP) <= m.receivedAt
  {
    ScannedFromBound(box, Some(cp), a, settings, m, folder);
    LaterOfTwoBounds(cp, a.now, settings.lookback, m.receivedAt);
  }

  /** A message is scanned if it is under a day old and no poll that moved the checkpoint
      ended more than the lookback after its receipt. */
  lemma MailIsCovered(
      box: Box, cp: Option<int>, before: seq<Attempt>, a: Attempt, settings: Settings, m: Message, folder: Folder,
      latest: int)
    requires Delivered(box) && Sees(box, a, settings, m, folder) && a.now - m.receivedAt <= MAX_CATCHUP
    requires forall b :: b in before ==> Faithful(box, b) && (Advances(b) ==> b.internalAt <= latest)
    requires (cp.Some? ==> cp.value <= latest) && CheckpointAfter(cp, before, settings).Some?
    requires latest <= m.receivedAt + settings.lookback
    ensures m in Scanned(CheckpointAfter(cp, before, settings), a, settings)
  {
    CheckpointIsBehindReads(box, cp, before, settings, latest);
    MailIsScannedIff(box, CheckpointAfter(cp, before, settings).value, a, settings, m, folder);
  }

  /** In the Inbox: by the first successful poll that reads it after the message appears, if
      that is within the lookback of receipt, less the longest time between a poll's reads. */
  lemma InboxMailIsCovered(
      box: Box, cp: int, before: seq<Attempt>, a: Attempt, settings: Settings, m: Message, skew: nat)
    requires Delivered(box) && Sees(box, a, settings, m, Inbox) && a.now - m.receivedAt <= MAX_CATCHUP
    requires forall b :: b in before ==> Faithful(box, b) && b.internalAt - b.inboxAt <= skew
    requires forall b :: b in before && b.inbox.Some? ==> b.inboxAt < box[m].visibleAt
    requires cp < box[m].visibleAt + skew <= m.receivedAt + settings.lookback + 1
    ensures m in Scanned(CheckpointAfter(Some(cp), before, settings), a, settings)
  {
    CheckpointIsBehindReads(box, Some(cp), before, settings, box[m].visibleAt - 1 + skew);
    MailIsCovered(box, Some(cp), before, a, settings, m, Inbox, box[m].visibleAt - 1 + skew);
  }

  /** In Internal Requests: by the first poll after that which reads both folders; polls that
      fail in between hold the checkpoint, and slow ones do no harm. */
  lemma InternalMailIsCovered(
      box: Box, cp: int, before: seq<Attempt>, a: Attempt, settings: Settings, m: Message)
    requires Delivered(box) && Sees(box, a, settings, m, InternalRequests) && a.now - m.receivedAt <= MAX_CATCHUP
    requires forall b :: b in before ==> Faithful(box, b) && (Advances(b) ==> b.internalAt < box[m].visibleAt)
    requires cp < box[m].visibleAt <= m.receivedAt + settings.lookback + 1
    ensures m in Scanned(CheckpointAfter(Some(cp), before, settings), a, settings)
  {
    CheckpointIsBehindReads(box, Some(cp), before, settings, box[m].visibleAt - 1);
    MailIsCovered(box, Some(cp), before, a, settings, m, InternalRequests, box[m].visibleAt - 1);
  }

  // ----- Exactly when coverage holds ---------------------------------------------------------------

  ghost predicate Consecutive(attempts: seq<Attempt>) {
    forall i, j :: 0 <= i < j < |attempts| ==> attempts[i].internalAt <= attempts[j].now
  }

  /** One poll after another, each with at most `skew` between its two reads. */
  ghost predicate Polling(box: Box, attempts: seq<Attempt>, skew: nat) {
    Consecutive(attempts) && forall a :: a in attempts ==> Faithful(box, a) && a.internalAt - a.inboxAt <= skew
  }

  /** How late messages appear after their receipt at most, how long a poll takes between its
      two reads at most, and the unit of which every time of receipt is a multiple. */
  datatype Limits = Limits(delay: nat, skew: nat, unit: nat)

  function Times(n: int, unit: nat): int
    decreases if n < 0 then -n else n
  {
    if n == 0 then 0 else if n > 0 then Times(n - 1, unit) + unit else Times(n + 1, unit) - unit
  }

  ghost predicate IsMultiple(t: int, unit: nat) {
    unit >= 1 && exists n :: Times(n, unit) == t
  }

  ghost predicate Stamped(box: Box, unit: nat) {
    forall m :: m in box ==> IsMultiple(m.receivedAt, unit)
  }

  /** The poll can see a message that has appeared in time and is under a day old. */
  ghost predicate Appears(box: Box, a: Attempt, settings: Settings, m: Message, folder: Folder, limits: Limits) {
    && Delivered(box) && Stamped(box, limits.unit) && Sees(box, a, settings, m, folder)
    && box[m].visibleAt <= m.receivedAt + limits.delay && a.now - m.receivedAt <= MAX_CATCHUP
  }

  /** The polls before it have set a checkpoint and have read the folder too early. */
  ghost predicate LookedTooEarly(box: Box, before: seq<Attempt>, settings: Settings, m: Message, folder: Folder)
    requires m in box
  {
    && CheckpointAfter(None, before, settings).Some?
    && (forall b :: b in before && Reads(b, folder) ==> ReadAt(b, folder) < box[m].visibleAt)
  }

  /** A history of polls that has set a checkpoint, and the first poll to read a folder after
      a message has appeared there, when it is under a day old. */
  ghost predicate FirstLook(
      box: Box, before: seq<Attempt>, a: Attempt, settings: Settings, m: Message, folder: Folder, limits: Limits)
  {
    && Appears(box, a, settings, m, folder, limits)
    && Polling(box, before + [a], limits.skew)
    && LookedTooEarly(box, before, settings, m, folder)
  }

  ghost predicate AlwaysCovers(settings: Settings, folder: Folder, limits: Limits) {
    forall box, before, a, m :: FirstLook(box, before, a, settings, m, folder, limits) ==>
      m in Scanned(CheckpointAfter(None, before, settings), a, settings)
  }

  /** The Inbox is read first, so only there do slow polls count against the lookback. */
  predicate WithinLookback(settings: Settings, folder: Folder, limits: Limits) {
    || limits.delay + (if folder.Inbox? then limits.skew else 0) <= settings.lookback + limits.unit
    || settings.lookback + limits.unit > MAX_CATCHUP
  }

  lemma ScannedIsInBox(box: Box, cp: Option<int>, a: Attempt, settings: Settings, m: Message)
    requires Faithful(box, a) && m in Scanned(cp, a, settings)
    ensures m in box
  {
    var bound := SentBound(Since(cp, a.now, settings.lookback));
    if m !in Filter(a.inbox.value, (x: Message) => x.receivedAt >= bound) {
      assert m in Filter(a.internal.value, (x: Message) => x.receivedAt >= bound && IsBypass(x, settings));
    }
  }

  lemma {:induction false} CheckpointIsStamped(box: Box, attempts: seq<Attempt>, settings: Settings, unit: nat)
    requires Stamped(box, unit) && forall a :: a in attempts ==> Faithful(box, a)
    ensures var cp := CheckpointAfter(None, attempts, settings); cp.Some? ==> IsMultiple(cp.value, unit)
  {
    if attempts != [] {
      var front, a := attempts[..|attempts| - 1], attempts[|attempts| - 1];
      assert attempts == front + [a];
      CheckpointIsStamped(box, front, settings, unit);
      var scanned := Scanned(CheckpointAfter(None, front, settings), a, settings);
      if Latest(scanned).Some? {
        var m :| m in scanned && m.receivedAt == Latest(scanned).value;
        ScannedIsInBox(box, CheckpointAfter(None, front, settings), a, settings, m);
      }
    }
  }

  lemma TimesNext(n: int, unit: nat)
    ensures Times(n + 1, unit) == Times(n, unit) + unit
  {
  }

  lemma {:induction false} TimesAdds(n: int, k: int, unit: nat)
    ensures Times(n + k, unit) == Times(n, unit) + Times(k, unit)
    decreases if k < 0 then -k else k
  {
    if k > 0 {
      TimesAdds(n, k - 1, unit);
      TimesNext(n + k - 1, unit);
    } else if k < 0 {
      TimesAdds(n, k + 1, unit);
      TimesNext(n + k, unit);
    }
  }

  lemma TimesSubtracts(n: int, k: int, unit: nat)
    ensures Times(n - k, unit) == Times(n, unit) - Times(k, unit)
  {
    TimesAdds(n - k, k, unit);
  }

  lemma {:induction false} TimesIsProduct(n: nat, unit: nat)
    ensures Times(n, unit) == n * unit
  {
    if n > 0 {
      TimesIsProduct(n - 1, unit);
      assert n * unit == (n - 1) * unit + unit;
    }
  }

  lemma {:induction false} TimesIsAtLeast(n: int, unit: nat)
    requires n >= 1
    ensures Times(n, unit) >= unit
  {
    if n > 1 {
      TimesIsAtLeast(n - 1, unit);
    }
  }

  lemma MultiplesAreApart(x: int, y: int, unit: nat)
    requires IsMultiple(x, unit) && IsMultiple(y, unit) && x < y + unit
    ensures x <= y
  {
    var n :| Times(n, unit) == x;
    var k :| Times(k, unit) == y;
    TimesSubtracts(n, k, unit);
    TimesSubtracts(k, n, unit);
    if n > k {
      TimesIsAtLeast(n - k, unit);
    } else if n < k {
      TimesIsAtLeast(k - n, unit);
    }
  }

  lemma SumIsMultiple(x: int, y: int, unit: nat)
    requires IsMultiple(x, unit) && IsMultiple(y, unit)
    ensures IsMultiple(x + y, unit) && IsMultiple(x - y, unit)
  {
    var n :| Times(n, unit) == x;
    var k :| Times(k, unit) == y;
    TimesAdds(n, k, unit);
    TimesSubtracts(n, k, unit);
  }

  lemma FirstLookIsCovered(
      box: Box, before: seq<Attempt>, a: Attempt, settings: Settings, m: Message, folder: Folder, limits: Limits)
    requires FirstLook(box, before, a, settings, m, folder, limits)
    requires IsMultiple(settings.lookback, limits.unit) && WithinLookback(settings, folder, limits)
    ensures m in Scanned(CheckpointAfter(None, before, settings), a, settings)
  {
    assert forall b :: b in before ==> b in before + [a];
    forall b | b in before ensures b.internalAt <= a.now {
      var i :| 0 <= i < |before| && before[i] == b;
      assert (before + [a])[i] == b && (before + [a])[|before|] == a;
    }
    var cp := CheckpointAfter(None, before, settings).value;
    if settings.lookback + limits.unit > MAX_CATCHUP {
      CheckpointIsBehindReads(box, None, before, settings, a.now);
    } else {
      var latest := box[m].visibleAt - 1 + if folder.Inbox? then limits.skew else 0;
      CheckpointIsBehindReads(box, None, before, settings, latest);
    }
    CheckpointIsStamped(box, before, settings, limits.unit);
    SumIsMultiple(cp, settings.lookback, limits.unit);
    MultiplesAreApart(cp - settings.lookback, m.receivedAt, limits.unit);
    MailIsScannedIff(box, cp, a, settings, m, folder);
  }

  /** A message received one unit before a whole second, and a message received one unit more
      than the lookback later. */
  function MissedBox(m: Message, x: Message, folder: Folder, delay: nat): Box {
    map[m := Stay(folder, m.receivedAt + delay, None), x := Stay(InternalRequests, x.receivedAt, None)]
  }

  /** A poll that reads its folder in time not to see the one, and late enough to see the other. */
  function SlowPoll(m: Message, x: Message, settings: Settings, delay: nat): Attempt {
    var inboxAt := if m.receivedAt + delay - 1 < x.receivedAt then m.receivedAt + delay - 1 else x.receivedAt;
    Attempt(if settings.lookback < 0 then inboxAt + settings.lookback else inboxAt,
            inboxAt, x.receivedAt, Some([]), Some([x]))
  }

  function NextPoll(m: Message, x: Message, folder: Folder, delay: nat): Attempt {
    var readAt := if m.receivedAt + delay < x.receivedAt then x.receivedAt else m.receivedAt + delay;
    Attempt(x.receivedAt, readAt, readAt,
            Some(if folder.Inbox? then [m] else []), Some(if folder.Inbox? then [x] else [m, x]))
  }

  lemma SlowPollIsFaithful(m: Message, x: Message, settings: Settings, folder: Folder, delay: nat)
    requires m.id != x.id && (folder.InternalRequests? ==> x.receivedAt < m.receivedAt + delay)
    ensures Faithful(MissedBox(m, x, folder, delay), SlowPoll(m, x, settings, delay))
  {
    assert [x][0] == x;
  }

  lemma NextPollSees(m: Message, x: Message, settings: Settings, folder: Folder, delay: nat)
    requires m.id != x.id && IsBypass(m, settings)
    ensures Sees(MissedBox(m, x, folder, delay), NextPoll(m, x, folder, delay), settings, m, folder)
  {
    var next := NextPoll(m, x, folder, delay);
    assert [x][0] == x && [m][0] == m && [m, x][0] == m && [m, x][1] == x;
  }

  ghost predicate MissedPair(m: Message, x: Message, settings: Settings, unit: nat) {
    && m.id != x.id && x.id != "" && IsBypass(m, settings) && IsBypass(x, settings)
    && IsMultiple(m.receivedAt, unit) && SentBound(m.receivedAt + unit) == m.receivedAt + unit
    && x.receivedAt == m.receivedAt + settings.lookback + unit
  }

  lemma MissedPolling(m: Message, x: Message, settings: Settings, folder: Folder, limits: Limits)
    requires MissedPair(m, x, settings, limits.unit) && !WithinLookback(settings, folder, limits)
    ensures var slow, next := SlowPoll(m, x, settings, limits.delay), NextPoll(m, x, folder, limits.delay);
      Polling(MissedBox(m, x, folder, limits.delay), [slow] + [next], limits.skew)
  {
    var slow, next := SlowPoll(m, x, settings, limits.delay), NextPoll(m, x, folder, limits.delay);
    SlowPollIsFaithful(m, x, settings, folder, limits.delay);
    NextPollSees(m, x, settings, folder, limits.delay);
    assert slow.internalAt - slow.inboxAt <= limits.skew && next.internalAt == next.inboxAt;
    PollingPair(MissedBox(m, x, folder, limits.delay), slow, next, limits.skew);
  }

  lemma PollingPair(box: Box, slow: Attempt, next: Attempt, skew: nat)
    requires Faithful(box, slow) && Faithful(box, next) && slow.internalAt <= next.now
    requires slow.internalAt - slow.inboxAt <= skew && next.internalAt - next.inboxAt <= skew
    ensures Polling(box, [slow] + [next], skew)
  {
    forall b | b in [slow] + [next] ensures b == slow || b == next {
    }
  }

  lemma MissedStamps(m: Message, x: Message, settings: Settings, folder: Folder, limits: Limits)
    requires MissedPair(m, x, settings, limits.unit) && IsMultiple(settings.lookback, limits.unit)
    ensures Stamped(MissedBox(m, x, folder, limits.delay), limits.unit)
  {
    assert Times(1, limits.unit) == limits.unit;
    SumIsMultiple(m.receivedAt, settings.lookback, limits.unit);
    SumIsMultiple(m.receivedAt + settings.lookback, limits.unit, limits.unit);
  }

  lemma MissedLook(m: Message, x: Message, settings: Settings, folder: Folder, limits: Limits)
    requires MissedPair(m, x, settings, limits.unit) && !WithinLookback(settings, folder, limits)
    requires IsMultiple(settings.lookback, limits.unit)
    ensures var slow, next := SlowPoll(m, x, settings, limits.delay), NextPoll(m, x, folder, limits.delay);
      FirstLook(MissedBox(m, x, folder, limits.delay), [slow], next, settings, m, folder, limits)
  {
    MissedAppears(m, x, settings, folder, limits);
    MissedPolling(m, x, settings, folder, limits);
    MissedTooEarly(m, x, settings, folder, limits);
  }

  lemma MissedAppears(m: Message, x: Message, settings: Settings, folder: Folder, limits: Limits)
    requires MissedPair(m, x, settings, limits.unit) && !WithinLookback(settings, folder, limits)
    requires IsMultiple(settings.lookback, limits.unit)
    ensures var box, next := MissedBox(m, x, folder, limits.delay), NextPoll(m, x, folder, limits.delay);
      Appears(box, next, settings, m, folder, limits)
  {
    NextPollSees(m, x, settings, folder, limits.delay);
    MissedStamps(m, x, settings, folder, limits);
  }

  lemma SlowPollMovesOn(m: Message, x: Message, settings: Settings, delay: nat)
    requires x.id != "" && IsBypass(x, settings)
    ensures CheckpointAfter(None, [SlowPoll(m, x, settings, delay)], settings) == Some(x.receivedAt)
  {
    PollMovesOn(settings, SlowPoll(m, x, settings, delay), x);
  }

  lemma MissedTooEarly(m: Message, x: Message, settings: Settings, folder: Folder, limits: Limits)
    requires MissedPair(m, x, settings, limits.unit) && !WithinLookback(settings, folder, limits)
    ensures var box, slow := MissedBox(m, x, folder, limits.delay), SlowPoll(m, x, settings, limits.delay);
      LookedTooEarly(box, [slow], settings, m, folder)
  {
    SlowPollMovesOn(m, x, settings, limits.delay);
  }

  /** Past the threshold a run misses the message, because the slow poll moves the checkpoint
      to the other one. */
  lemma FirstLookCanMiss(settings: Settings, sender: string, folder: Folder, limits: Limits)
      returns (box: Box, slow: Attempt, next: Attempt, m: Message)
    requires Lower(Strip(sender)) in settings.bypassSenders && IsMultiple(settings.lookback, limits.unit)
    requires !WithinLookback(settings, folder, limits)
    ensures FirstLook(box, [slow], next, settings, m, folder, limits)
    ensures m !in Scanned(CheckpointAfter(None, [slow], settings), next, settings)
  {
    var y, x := MissedMessages(settings, sender, limits.unit);
    m, box := y, MissedBox(y, x, folder, limits.delay);
    slow, next := SlowPoll(y, x, settings, limits.delay), NextPoll(y, x, folder, limits.delay);
    MissedLook(m, x, settings, folder, limits);
    MissedScans(m, x, settings, folder, limits);
  }

  lemma MissedScans(m: Message, x: Message, settings: Settings, folder: Folder, limits: Limits)
    requires MissedPair(m, x, settings, limits.unit)
    ensures var slow, next := SlowPoll(m, x, settings, limits.delay), NextPoll(m, x, folder, limits.delay);
      m !in Scanned(CheckpointAfter(None, [slow], settings), next, settings)
  {
    var box, next := MissedBox(m, x, folder, limits.delay), NextPoll(m, x, folder, limits.delay);
    BoundIsLater(x.receivedAt, m.receivedAt + limits.unit, settings.lookback, next.now, m.receivedAt);
    NextPollSees(m, x, settings, folder, limits.delay);
    NotScanned(box, Some(x.receivedAt), next, settings, m, folder);
    SlowPollMovesOn(m, x, settings, limits.delay);
  }

  lemma BoundIsLater(cp: int, sent: int, lookback: int, now: int, at: int)
    requires at < sent == SentBound(sent) && cp == sent + lookback
    ensures at < SentBound(Since(Some(cp), now, lookback))
  {
    assert cp - lookback == sent;
    LaterOfTwoBounds(cp, now, lookback, at);
  }

  lemma NotScanned(box: Box, cp: Option<int>, a: Attempt, settings: Settings, m: Message, folder: Folder)
    requires Sees(box, a, settings, m, folder) && m.receivedAt < SentBound(Since(cp, a.now, settings.lookback))
    ensures m !in Scanned(cp, a, settings)
  {
    ScannedFromBound(box, cp, a, settings, m, folder);
  }

  lemma MissedMessages(settings: Settings, sender: string, unit: nat) returns (m: Message, x: Message)
    requires Lower(Strip(sender)) in settings.bypassSenders && unit >= 1
    ensures MissedPair(m, x, settings, unit)
  {
    m := Message("a", "1", sender, SECOND * unit - unit);
    x := Message("b", "2", sender, m.receivedAt + settings.lookback + unit);
    WholeSecondIsSent(unit);
    TimesIsProduct(SECOND - 1, unit);
  }

  lemma WholeSecondIsSent(n: nat)
    ensures SentBound(SECOND * n) == SECOND * n
  {
  }

  /** A first poll that finds nothing but one message in Internal Requests sets the checkpoint there. */
  lemma PollMovesOn(settings: Settings, slow: Attempt, x: Message)
    requires x.id != "" && IsBypass(x, settings)
    requires slow.now - settings.lookback <= x.receivedAt && slow.now - MAX_CATCHUP <= x.receivedAt
    requires slow.inbox == Some([]) && slow.internal == Some([x])
    ensures CheckpointAfter(None, [slow], settings) == Some(x.receivedAt)
  {
    var scanned := Scanned(None, slow, settings);
    assert [x][0] == x;
    assert x in scanned by {
      assert SentBound(Since(None, slow.now, settings.lookback)) <= x.receivedAt;
    }
    assert forall y :: y in scanned ==> y == x;
    assert [slow][..0] == [];
  }

  /** Coverage over runs holds exactly when delay and skew together exceed the lookback by no
      more than the unit; in Internal Requests, when the delay alone does. */
  lemma CoverageThreshold(settings: Settings, sender: string, folder: Folder, limits: Limits)
    requires Lower(Strip(sender)) in settings.bypassSenders && IsMultiple(settings.lookback, limits.unit)
    ensures AlwaysCovers(settings, folder, limits) <==> WithinLookback(settings, folder, limits)
  {
    if WithinLookback(settings, folder, limits) {
      forall box, before, a, m | FirstLook(box, before, a, settings, m, folder, limits)
        ensures m in Scanned(CheckpointAfter(None, before, settings), a, settings)
      {
        FirstLookIsCovered(box, before, a, settings, m, folder, limits);
      }
    } else {
      var box, slow, next, m := FirstLookCanMiss(settings, sender, folder, limits);
      assert FirstLook(box, [slow], next, settings, m, folder, limits);
    }
  }

  /** With whole-second stamps and a lookback of whole seconds, messages that appear in the
      Inbox within the lookback are always covered exactly if polls take at most a second
      between their reads. */
  lemma WholeSecondThreshold(settings: Settings, sender: string, skew: nat)
    requires 0 <= settings.lookback <= MAX_CATCHUP - SECOND && IsMultiple(settings.lookback, SECOND)
    requires Lower(Strip(sender)) in settings.bypassSenders
    ensures AlwaysCovers(settings, Inbox, Limits(settings.lookback, skew, SECOND)) <==> skew <= SECOND
  {
    CoverageThreshold(settings, sender, Inbox, Limits(settings.lookback, skew, SECOND));
  }

  /** So a message that appears just within the lookback is missed after a poll that took one
      microsecond more than the unit between its reads. */
  lemma SlowPollCanMissMail(settings: Settings, sender: string, unit: nat)
      returns (box: Box, slow: Attempt, next: Attempt, m: Message)
    requires 0 <= settings.lookback <= MAX_CATCHUP - unit && IsMultiple(settings.lookback, unit)
    requires Lower(Strip(sender)) in settings.bypassSenders
    ensures FirstLook(box, [slow], next, settings, m, Inbox, Limits(settings.lookback, unit + 1, unit))
    ensures m !in Scanned(CheckpointAfter(None, [slow], settings), next, settings)
  {
    box, slow, next, m := FirstLookCanMiss(settings, sender, Inbox, Limits(settings.lookback, unit + 1, unit));
  }

  lemma {:induction false} EveryTimeIsMultiple(t: int)
    ensures Times(t, 1) == t && IsMultiple(t, 1)
    decreases if t < 0 then -t else t
  {
    if t > 0 {
      EveryTimeIsMultiple(t - 1);
    } else if t < 0 {
      EveryTimeIsMultiple(t + 1);
    }
  }

  /** Stamps as fine as the clock make the threshold exact to the microsecond. */
  lemma ThresholdToTheMicrosecond(settings: Settings, sender: string, folder: Folder, delay: nat, skew: nat)
    requires Lower(Strip(sender)) in settings.bypassSenders
    ensures AlwaysCovers(settings, folder, Limits(delay, skew, 1)) <==>
      || delay + (if folder.Inbox? then skew else 0) <= settings.lookback + 1
      || settings.lookback >= MAX_CATCHUP
  {
    EveryTimeIsMultiple(settings.lookback);
    CoverageThreshold(settings, sender, folder, Limits(delay, skew, 1));
  }

  // ----- The checkpoint ----------------------------------------------------------------------------

  /** Some message in the box accounts for the checkpoint and could already be read. */
  ghost predicate Witnessed(box: Box, cp: int, asOf: int, settings: Settings) {
    exists m :: m in box && CanSet(box, m, asOf, settings) && m.receivedAt == cp
  }

  predicate CanSet(box: Box, m: Message, asOf: int, settings: Settings)
    requires m in box
  {
    m.id != "" && box[m].visibleAt <= asOf && (box[m].folder.InternalRequests? ==> IsBypass(m, settings))
  }

  predicate NotBefore(cp: Option<int>, next: Option<int>) {
    cp.Some? ==> next.Some? && cp.value <= next.value
  }

  /** With nothing removed, a poll that reads both folders scans exactly the messages at or
      after its bound that it can see. */
  lemma ScannedIsVisible(box: Box, cp: Option<int>, a: Attempt, settings: Settings, m: Message)
    requires Faithful(box, a) && Advances(a) && forall x :: x in box ==> box[x].goneAt.None?
    ensures var bound := SentBound(Since(cp, a.now, settings.lookback));
      && (m in Scanned(cp, a, settings) ==>
        m in box && m.receivedAt >= bound && (m.id != "" ==> CanSet(box, m, a.internalAt, settings)))
      && (m in box && CanSet(box, m, a.now, settings) && m.receivedAt >= bound ==> m in Scanned(cp, a, settings))
  {
    var bound := SentBound(Since(cp, a.now, settings.lookback));
    var fromInbox := Filter(a.inbox.value, (x: Message) => x.receivedAt >= bound);
    var fromInternal := Filter(a.internal.value, (x: Message) => x.receivedAt >= bound && IsBypass(x, settings));
    assert Scanned(cp, a, settings) == fromInbox + fromInternal;
  }

  lemma CheckpointStep(box: Box, cp: Option<int>, asOf: int, a: Attempt, settings: Settings)
    requires Faithful(box, a) && asOf <= a.now && forall m :: m in box ==> box[m].goneAt.None?
    requires cp.Some? ==> Witnessed(box, cp.value, asOf, settings)
    ensures NotBefore(cp, NextCheckpoint(cp, a, settings))
    ensures NextCheckpoint(cp, a, settings).Some? ==>
      Witnessed(box, NextCheckpoint(cp, a, settings).value, a.internalAt, settings)
  {
    var scanned := Scanned(cp, a, settings);
    if Advances(a) && Latest(scanned).Some? {
      var top :| top in scanned && top.id != "" && top.receivedAt == Latest(scanned).value;
      ScannedIsVisible(box, cp, a, settings, top);
      if cp.Some? {
        var m :| m in box && CanSet(box, m, asOf, settings) && m.receivedAt == cp.value;
        ScannedIsVisible(box, cp, a, settings, m);
      }
    } else if cp.Some? {
      var m :| m in box && CanSet(box, m, asOf, settings) && m.receivedAt == cp.value;
      assert CanSet(box, m, a.internalAt, settings);
    }
  }

  /** With nothing deleted the checkpoint never decreases: not when the window is clamped,
      not when its bound is cut to the second, not when a read fails. */
  lemma {:induction false} CheckpointNeverRetreats(box: Box, attempts: seq<Attempt>, settings: Settings)
    requires forall m :: m in box ==> box[m].goneAt.None?
    requires forall i :: 0 <= i < |attempts| ==> Faithful(box, attempts[i])
    requires forall i, j :: 0 <= i < j < |attempts| ==> attempts[i].internalAt <= attempts[j].now
    ensures forall n :: 0 <= n <= |attempts| ==>
      NotBefore(CheckpointAfter(None, attempts[..n], settings), CheckpointAfter(None, attempts, settings))
    ensures var cp := CheckpointAfter(None, attempts, settings);
      cp.Some? ==> attempts != [] && Witnessed(box, cp.value, attempts[|attempts| - 1].internalAt, settings)
  {
    if attempts == [] {
      assert attempts[..0] == [];
    } else {
      var before, a := attempts[..|attempts| - 1], attempts[|attempts| - 1];
      CheckpointNeverRetreats(box, before, settings);
      var cp := CheckpointAfter(None, before, settings);
      CheckpointStep(box, cp, if before == [] then a.now else before[|before| - 1].internalAt, a, settings);
      forall n | 0 <= n <= |attempts|
        ensures NotBefore(CheckpointAfter(None, attempts[..n], settings), CheckpointAfter(None, attempts, settings))
      {
        if n == |attempts| {
          assert attempts[..n] == attempts;
        } else {
          assert attempts[..n] == before[..n];
        }
      }
    }
  }

  // ----- The job -----------------------------------------------------------------------------------

  /** One line of the run log. */
  datatype RunRow = RunRow(mailbox: Mailbox, scanned: nat, created: nat, skipped: nat, failed: nat)

  /** The status a visit writes, if it writes one. */
  function Written(w: World, v: Visit): Option<Status> {
    if v.message.id == "" || IsCreated(w, v.mailbox, v.message.id) then None
    else Some(Handle(w, v).rows[(v.mailbox, v.message.id)].status)
  }

  function CountWritten(w: World, vs: seq<Visit>, status: Status): nat {
    if vs == [] then 0
    else
      var before := vs[..|vs| - 1];
      CountWritten(w, before, status) + (if Written(HandleAll(w, before), vs[|vs| - 1]) == Some(status) then 1 else 0)
  }

  ghost function CreatedKeys(w: World): set<(Mailbox, string)> {
    set k | k in w.rows && w.rows[k].status.Created?
  }

  /** The created counter is the number of rows that come to say `created`. */
  lemma {:induction false} CreatedAreCounted(w: World, vs: seq<Visit>)
    ensures CreatedKeys(w) <= CreatedKeys(HandleAll(w, vs))
    ensures |CreatedKeys(HandleAll(w, vs))| == |CreatedKeys(w)| + CountWritten(w, vs, Created)
  {
    if vs != [] {
      var before, v := vs[..|vs| - 1], vs[|vs| - 1];
      CreatedAreCounted(w, before);
      OneMoreCreated(HandleAll(w, before), v);
    }
  }

  lemma OneMoreCreated(w: World, v: Visit)
    ensures CreatedKeys(Handle(w, v)) ==
      CreatedKeys(w) + if Written(w, v) == Some(Created) then {(v.mailbox, v.message.id)} else {}
    ensures Written(w, v) == Some(Created) ==> (v.mailbox, v.message.id) !in CreatedKeys(w)
  {
    ProcessedExactly(w, v);
  }

  /** Each visit writes one status, unless the message has no id or its row is created. */
  lemma {:induction false} CountersAddUp(w: World, vs: seq<Visit>)
    ensures CountWritten(w, vs, Created) + CountWritten(w, vs, SkippedInternalDomain) + CountWritten(w, vs, Failed) ==
      |HandledAt(w, vs)|
  {
    if vs != [] {
      CountersAddUp(w, vs[..|vs| - 1]);
      HandledPlaces(w, vs);
      CountStep(w, vs, Created);
      CountStep(w, vs, SkippedInternalDomain);
      CountStep(w, vs, Failed);
      OneStatusWritten(HandleAll(w, vs[..|vs| - 1]), vs[|vs| - 1]);
    }
  }

  lemma CountStep(w: World, vs: seq<Visit>, status: Status)
    requires vs != []
    ensures var n := |vs| - 1;
      CountWritten(w, vs, status) == CountWritten(w, vs[..n], status) +
        if Written(HandleAll(w, vs[..n]), vs[n]) == Some(status) then 1 else 0
  {
  }

  lemma OneStatusWritten(w: World, v: Visit)
    ensures Written(w, v).Some? <==> v.message.id != "" && !IsCreated(w, v.mailbox, v.message.id)
  {
  }

  ghost function HandledAt(w: World, vs: seq<Visit>): set<nat> {
    set i: nat | i < |vs| && IsHandled(w, vs, i)
  }

  predicate IsHandled(w: World, vs: seq<Visit>, i: nat)
    requires i < |vs|
  {
    vs[i].message.id != "" && !IsCreated(HandleAll(w, vs[..i]), vs[i].mailbox, vs[i].message.id)
  }

  lemma HandledPlaces(w: World, vs: seq<Visit>)
    requires vs != []
    ensures var n := |vs| - 1;
      |HandledAt(w, vs)| == |HandledAt(w, vs[..n])| + if IsHandled(w, vs, n) then 1 else 0
  {
    var n := |vs| - 1;
    forall i: nat | i < n ensures IsHandled(w, vs[..n], i) == IsHandled(w, vs, i) {
      assert vs[..n][..i] == vs[..i] && vs[..n][i] == vs[i];
    }
    assert HandledAt(w, vs) == HandledAt(w, vs[..n]) + if IsHandled(w, vs, n) then {n} else {};
  }

  function VisitsOf(mailbox: Mailbox, ms: seq<Message>, settings: Settings, replies: seq<Replies>): (vs: seq<Visit>)
    requires |ms| <= |replies|
    ensures |vs| == |ms|
  {
    seq(|ms|, i requires 0 <= i < |ms| => Visit(mailbox, ms[i], settings, replies[i]))
  }

  // ----- Runs of polls -----------------------------------------------------------------------------

  datatype Poll = Poll(mailbox: Mailbox, attempt: Attempt, settings: Settings, replies: seq<Replies>)

  /** What the polls of both mailboxes keep between them. */
  datatype Bot = Bot(world: World, checkpoints: map<Mailbox, int>)

  function CheckpointOf(b: Bot, mailbox: Mailbox): Option<int> {
    if mailbox in b.checkpoints then Some(b.checkpoints[mailbox]) else None
  }

  function ScannedBy(b: Bot, p: Poll): seq<Message> {
    Scanned(CheckpointOf(b, p.mailbox), p.attempt, p.settings)
  }

  /** The outside world answers for every scanned message. */
  predicate Answered(b: Bot, p: Poll) {
    |ScannedBy(b, p)| <= |p.replies|
  }

  function VisitsBy(b: Bot, p: Poll): seq<Visit>
    requires Answered(b, p)
  {
    VisitsOf(p.mailbox, ScannedBy(b, p), p.settings, p.replies)
  }

  function PollStep(b: Bot, p: Poll): Bot
    requires Answered(b, p)
  {
    var next := NextCheckpoint(CheckpointOf(b, p.mailbox), p.attempt, p.settings);
    Bot(HandleAll(b.world, VisitsBy(b, p)),
        if next.Some? then b.checkpoints[p.mailbox := next.value] else b.checkpoints)
  }

  /** The state after a run of polls; one that is not answered never happens. */
  function AfterPolls(polls: seq<Poll>): Bot {
    if polls == [] then Bot(EMPTY_WORLD, map[])
    else
      var before, p := AfterPolls(polls[..|polls| - 1]), polls[|polls| - 1];
      if Answered(before, p) then PollStep(before, p) else before
  }

  function VisitsDuring(polls: seq<Poll>): seq<Visit> {
    if polls == [] then []
    else
      var before, p := AfterPolls(polls[..|polls| - 1]), polls[|polls| - 1];
      VisitsDuring(polls[..|polls| - 1]) + if Answered(before, p) then VisitsBy(before, p) else []
  }

  /** The attempts of one mailbox. */
  function AttemptsOf(polls: seq<Poll>, mailbox: Mailbox): seq<Attempt> {
    if polls == [] then []
    else
      var before, p := AfterPolls(polls[..|polls| - 1]), polls[|polls| - 1];
      AttemptsOf(polls[..|polls| - 1], mailbox)
      + (if p.mailbox == mailbox && Answered(before, p) then [p.attempt] else [])
  }

  /** A run of polls handles the messages of its visits, one after the other. */
  lemma {:induction false} PollsHandleVisits(polls: seq<Poll>)
    ensures AfterPolls(polls).world == HandleAll(EMPTY_WORLD, VisitsDuring(polls))
  {
    if polls != [] {
      var before, p := AfterPolls(polls[..|polls| - 1]), polls[|polls| - 1];
      var visits := VisitsDuring(polls[..|polls| - 1]);
      PollsHandleVisits(polls[..|polls| - 1]);
      if Answered(before, p) {
        HandleAllAppends(EMPTY_WORLD, visits, VisitsBy(before, p));
      } else {
        assert visits + [] == visits;
      }
    }
  }

  lemma CheckpointAfterExtends(cp: Option<int>, attempts: seq<Attempt>, a: Attempt, settings: Settings)
    ensures CheckpointAfter(cp, attempts + [a], settings) ==
      NextCheckpoint(CheckpointAfter(cp, attempts, settings), a, settings)
  {
    assert (attempts + [a])[..|attempts|] == attempts;
  }

  /** A poll moves the checkpoint of its own mailbox and no other. */
  lemma StepCheckpoint(b: Bot, p: Poll, mailbox: Mailbox)
    requires Answered(b, p)
    ensures CheckpointOf(PollStep(b, p), mailbox) ==
      if p.mailbox == mailbox
      then NextCheckpoint(CheckpointOf(b, mailbox), p.attempt, p.settings)
      else CheckpointOf(b, mailbox)
  {
  }

  lemma {:induction false} CheckpointIsOfAttempts(polls: seq<Poll>, mailbox: Mailbox, settings: Settings)
    requires forall p :: p in polls && p.mailbox == mailbox ==> p.settings == settings
    ensures CheckpointOf(AfterPolls(polls), mailbox) == CheckpointAfter(None, AttemptsOf(polls, mailbox), settings)
  {
    if polls != [] {
      var front, p := polls[..|polls| - 1], polls[|polls| - 1];
      assert polls == front + [p] && p in polls && forall q :: q in front ==> q in polls;
      CheckpointIsOfAttempts(front, mailbox, settings);
      var attempts := AttemptsOf(front, mailbox);
      if Answered(AfterPolls(front), p) {
        StepCheckpoint(AfterPolls(front), p, mailbox);
      }
      CheckpointAfterExtends(None, attempts, p.attempt, settings);
      assert attempts + [] == attempts;
    }
  }

  lemma WitnessedLater(box: Box, cp: int, asOf: int, later: int, s: Settings, t: Settings)
    requires Witnessed(box, cp, asOf, s) && asOf <= later && s.bypassSenders == t.bypassSenders
    ensures Witnessed(box, cp, later, t)
  {
    var m :| m in box && CanSet(box, m, asOf, s) && m.receivedAt == cp;
    assert CanSet(box, m, later, t);
  }

  /** Polls of both mailboxes in turn, which read what is there and lose nothing. */
  ghost predicate Steadily(polls: seq<Poll>, boxes: Mailbox -> Box) {
    && (forall mailbox, m :: m in boxes(mailbox) ==> boxes(mailbox)[m].goneAt.None?)
    && (forall p :: p in polls ==> Faithful(boxes(p.mailbox), p.attempt))
    && (forall i, j :: 0 <= i < j < |polls| ==>
          polls[i].attempt.internalAt <= polls[j].attempt.now && SameBypass(polls[i], polls[j]))
  }

  predicate SameBypass(p: Poll, q: Poll) {
    p.settings.bypassSenders == q.settings.bypassSenders
  }

  ghost predicate Accounted(polls: seq<Poll>, boxes: Mailbox -> Box, mailbox: Mailbox) {
    var cp := CheckpointOf(AfterPolls(polls), mailbox);
    cp.Some? ==>
      && polls != []
      && var last := polls[|polls| - 1]; Witnessed(boxes(mailbox), cp.value, last.attempt.internalAt, last.settings)
  }

  lemma StepIsAccounted(b: Bot, p: Poll, box: Box, mailbox: Mailbox, asOf: int)
    requires Answered(b, p) && (p.mailbox == mailbox ==> Faithful(box, p.attempt))
    requires asOf <= p.attempt.now <= p.attempt.internalAt && forall m :: m in box ==> box[m].goneAt.None?
    requires CheckpointOf(b, mailbox).Some? ==> Witnessed(box, CheckpointOf(b, mailbox).value, asOf, p.settings)
    ensures var after := CheckpointOf(PollStep(b, p), mailbox);
      && NotBefore(CheckpointOf(b, mailbox), after)
      && (after.Some? ==> Witnessed(box, after.value, p.attempt.internalAt, p.settings))
  {
    var cp := CheckpointOf(b, mailbox);
    StepCheckpoint(b, p, mailbox);
    if p.mailbox == mailbox {
      CheckpointStep(box, cp, asOf, p.attempt, p.settings);
    } else if cp.Some? {
      WitnessedLater(box, cp.value, asOf, p.attempt.internalAt, p.settings, p.settings);
    }
  }

  lemma LastPoll(polls: seq<Poll>, boxes: Mailbox -> Box)
    requires Steadily(polls, boxes) && polls != []
    ensures Steadily(polls[..|polls| - 1], boxes)
    ensures var front, p := polls[..|polls| - 1], polls[|polls| - 1];
      && Faithful(boxes(p.mailbox), p.attempt)
      && (front != [] ==>
            front[|front| - 1].attempt.internalAt <= p.attempt.now && SameBypass(front[|front| - 1], p))
  {
    var front, p := polls[..|polls| - 1], polls[|polls| - 1];
    assert p in polls;
    forall q | q in front ensures q in polls {
    }
    forall i, j | 0 <= i < j < |front|
      ensures front[i].attempt.internalAt <= front[j].attempt.now && SameBypass(front[i], front[j])
    {
      assert front[i] == polls[i] && front[j] == polls[j];
    }
    if front != [] {
      assert front[|front| - 1] == polls[|polls| - 2];
    }
  }

  lemma {:induction false} PollsAreAccounted(polls: seq<Poll>, boxes: Mailbox -> Box, mailbox: Mailbox)
    requires Steadily(polls, boxes)
    ensures Accounted(polls, boxes, mailbox)
    ensures polls != [] ==>
      NotBefore(CheckpointOf(AfterPolls(polls[..|polls| - 1]), mailbox), CheckpointOf(AfterPolls(polls), mailbox))
  {
    if polls != [] {
      var front, p := polls[..|polls| - 1], polls[|polls| - 1];
      LastPoll(polls, boxes);
      PollsAreAccounted(front, boxes, mailbox);
      var before, cp := AfterPolls(front), CheckpointOf(AfterPolls(front), mailbox);
      var asOf := if front == [] then p.attempt.now else front[|front| - 1].attempt.internalAt;
      if cp.Some? {
        WitnessedLater(boxes(mailbox), cp.value, asOf, asOf, front[|front| - 1].settings, p.settings);
      }
      if Answered(before, p) {
        StepIsAccounted(before, p, boxes(mailbox), mailbox, asOf);
      } else if cp.Some? {
        WitnessedLater(boxes(mailbox), cp.value, asOf, p.attempt.internalAt, p.settings, p.settings);
      }
    }
  }

  lemma {:induction false} CheckpointsNeverRetreat(polls: seq<Poll>, boxes: Mailbox -> Box, mailbox: Mailbox, n: nat)
    requires Steadily(polls, boxes) && n <= |polls|
    ensures NotBefore(CheckpointOf(AfterPolls(polls[..n]), mailbox), CheckpointOf(AfterPolls(polls), mailbox))
  {
    if n < |polls| {
      var front := polls[..|polls| - 1];
      assert polls[..n] == front[..n] && forall p :: p in front ==> p in polls;
      CheckpointsNeverRetreat(front, boxes, mailbox, n);
      PollsAreAccounted(polls, boxes, mailbox);
    } else {
      assert polls[..n] == polls;
    }
  }

  lemma {:induction false} VisitsExtend(polls: seq<Poll>, n: nat) returns (later: seq<Visit>)
    requires n <= |polls|
    ensures VisitsDuring(polls) == VisitsDuring(polls[..n]) + later
  {
    if n < |polls| {
      var front, p := polls[..|polls| - 1], polls[|polls| - 1];
      var some := VisitsExtend(front, n);
      var more := if Answered(AfterPolls(front), p) then VisitsBy(AfterPolls(front), p) else [];
      assert polls[..n] == front[..n];
      later := some + more;
      Associates(VisitsDuring(front[..n]), some, more);
    } else {
      assert polls[..n] == polls;
      later := [];
    }
  }

  lemma Associates(a: seq<Visit>, b: seq<Visit>, c: seq<Visit>)
    ensures (a + b) + c == a + (b + c)
  {
  }

  /** The same polls, with any answers of the outside world but what they read. */
  ghost predicate SamePolls(qs: seq<Poll>, polls: seq<Poll>) {
    |qs| == |polls| && forall n {:trigger SamePoll(qs[n], polls[n])} :: 0 <= n < |polls| ==> SamePoll(qs[n], polls[n])
  }

  predicate SamePoll(q: Poll, p: Poll) {
    q == p.(replies := q.replies) && |q.replies| == |p.replies|
  }

  /** What polls scan does not depend on the answers, nor what they visit. */
  lemma {:induction false} SamePollsVisit(qs: seq<Poll>, polls: seq<Poll>)
    requires SamePolls(qs, polls)
    ensures AfterPolls(qs).checkpoints == AfterPolls(polls).checkpoints
    ensures SameButReplies(VisitsDuring(qs), VisitsDuring(polls))
  {
    if polls != [] {
      var q, p := qs[|qs| - 1], polls[|polls| - 1];
      assert SamePoll(q, p);
      assert forall n :: 0 <= n < |polls| - 1 ==> SamePoll(qs[n], polls[n]);
      SamePollsVisit(qs[..|qs| - 1], polls[..|polls| - 1]);
      var b, c := AfterPolls(qs[..|qs| - 1]), AfterPolls(polls[..|polls| - 1]);
      SameScan(b, c, q, p);
      if Answered(b, q) {
        SameAppends(VisitsDuring(qs[..|qs| - 1]), VisitsBy(b, q), VisitsDuring(polls[..|polls| - 1]), VisitsBy(c, p));
      }
    }
  }

  lemma SameScan(b: Bot, c: Bot, q: Poll, p: Poll)
    requires SamePoll(q, p) && b.checkpoints == c.checkpoints
    ensures ScannedBy(b, q) == ScannedBy(c, p) && Answered(b, q) == Answered(c, p)
    ensures Answered(b, q) ==>
      PollStep(b, q).checkpoints == PollStep(c, p).checkpoints && SameButReplies(VisitsBy(b, q), VisitsBy(c, p))
  {
  }

  lemma SameAppends(us: seq<Visit>, us': seq<Visit>, vs: seq<Visit>, vs': seq<Visit>)
    requires SameButReplies(us, vs) && SameButReplies(us', vs')
    ensures SameButReplies(us + us', vs + vs')
  {
    forall n | 0 <= n < |us + us'| ensures SameVisit((us + us')[n], (vs + vs')[n]) {
      if n < |us| {
        assert SameVisit(us[n], vs[n]);
      } else {
        assert SameVisit(us'[n - |us|], vs'[n - |us|]);
      }
    }
  }

  /** The answers to the visits of one poll, and those it does not need. */
  function WithReplies(p: Poll, us: seq<Visit>): Poll
    requires |us| <= |p.replies|
  {
    p.(replies := seq(|p.replies|, n requires 0 <= n < |p.replies| =>
         if n < |us| then us[n].replies else p.replies[n]))
  }

  lemma RepliesAreVisited(b: Bot, c: Bot, p: Poll, us: seq<Visit>)
    requires b.checkpoints == c.checkpoints && Answered(c, p) && SameButReplies(us, VisitsBy(c, p))
    ensures SamePoll(WithReplies(p, us), p) && Answered(b, WithReplies(p, us)) && VisitsBy(b, WithReplies(p, us)) == us
  {
    var q := WithReplies(p, us);
    SameScan(b, c, q, p);
    forall n | 0 <= n < |us| ensures VisitsBy(b, q)[n] == us[n] {
      assert SameVisit(us[n], VisitsBy(c, p)[n]);
    }
  }

  /** Any answers to the visits of a run are the answers of a run. */
  lemma {:induction false} PollsFor(polls: seq<Poll>, us: seq<Visit>) returns (qs: seq<Poll>)
    requires SameButReplies(us, VisitsDuring(polls))
    ensures SamePolls(qs, polls) && VisitsDuring(qs) == us
  {
    if polls == [] {
      qs := [];
    } else {
      var front, p := polls[..|polls| - 1], polls[|polls| - 1];
      assert polls == front + [p];
      VisitsOfOneMore(front, p);
      var first, rest := SameParts(us, VisitsDuring(front), NextVisits(front, p));
      var before := PollsFor(front, first);
      qs := OnePollMore(before, front, p, rest);
    }
  }

  function NextVisits(polls: seq<Poll>, p: Poll): seq<Visit> {
    if Answered(AfterPolls(polls), p) then VisitsBy(AfterPolls(polls), p) else []
  }

  lemma VisitsOfOneMore(polls: seq<Poll>, p: Poll)
    ensures VisitsDuring(polls + [p]) == VisitsDuring(polls) + NextVisits(polls, p)
  {
    assert (polls + [p])[..|polls|] == polls;
  }

  lemma OnePollMore(before: seq<Poll>, front: seq<Poll>, p: Poll, rest: seq<Visit>) returns (qs: seq<Poll>)
    requires SamePolls(before, front) && SameButReplies(rest, NextVisits(front, p))
    ensures SamePolls(qs, front + [p]) && VisitsDuring(qs) == VisitsDuring(before) + rest
  {
    SamePollsVisit(before, front);
    LastPollFor(AfterPolls(before), AfterPolls(front), p, rest);
    var q := if Answered(AfterPolls(front), p) then WithReplies(p, rest) else p;
    VisitsOfOneMore(before, q);
    SamePollsExtend(before, front, q, p);
    qs := before + [q];
  }

  lemma LastPollFor(b: Bot, c: Bot, p: Poll, us: seq<Visit>)
    requires b.checkpoints == c.checkpoints
    requires SameButReplies(us, if Answered(c, p) then VisitsBy(c, p) else [])
    ensures var q := if Answered(c, p) then WithReplies(p, us) else p;
      SamePoll(q, p) && us == if Answered(b, q) then VisitsBy(b, q) else []
  {
    if Answered(c, p) {
      RepliesAreVisited(b, c, p, us);
    } else {
      SameScan(b, c, p, p);
    }
  }

  lemma SamePollsExtend(qs: seq<Poll>, polls: seq<Poll>, q: Poll, p: Poll)
    requires SamePolls(qs, polls) && SamePoll(q, p)
    ensures SamePolls(qs + [q], polls + [p]) && (qs + [q])[..|qs|] == qs
  {
    forall n | 0 <= n <= |polls| ensures SamePoll((qs + [q])[n], (polls + [p])[n]) {
      assert n < |polls| ==> SamePoll(qs[n], polls[n]);
    }
  }

  lemma SameParts(us: seq<Visit>, vs: seq<Visit>, vs': seq<Visit>) returns (first: seq<Visit>, rest: seq<Visit>)
    requires SameButReplies(us, vs + vs')
    ensures us == first + rest && SameButReplies(first, vs) && SameButReplies(rest, vs')
  {
    first, rest := us[..|vs|], us[|vs|..];
    forall n | 0 <= n < |vs| ensures SameVisit(first[n], vs[n]) {
      assert SameVisit(us[n], (vs + vs')[n]);
    }
    forall n | 0 <= n < |vs'| ensures SameVisit(rest[n], vs'[n]) {
      assert SameVisit(us[|vs| + n], (vs + vs')[|vs| + n]);
    }
  }

  /** In any run of polls of both mailboxes, no mailbox creates two tickets for a Message-ID
      that it does not take, refuse and take again. */
  lemma PollsCreateOneTicket(polls: seq<Poll>, mailbox: Mailbox, id: string)
    requires !Flips(VisitsDuring(polls), mailbox, id)
    ensures TicketsFor(AfterPolls(polls).world.tickets, mailbox, id) <= 1
  {
    PollsHandleVisits(polls);
    NoDuplicateTickets(VisitsDuring(polls), mailbox, id);
  }

  /** And that is exact: whatever Jira answers, polls that read what they read create at most
      one ticket, if and only if they do not take, refuse and take the message again. */
  lemma PollsCreateOneTicketIff(polls: seq<Poll>, mailbox: Mailbox, id: string)
    requires id != ""
    ensures (forall qs :: SamePolls(qs, polls) ==> TicketsFor(AfterPolls(qs).world.tickets, mailbox, id) <= 1)
      <==> !Flips(VisitsDuring(polls), mailbox, id)
  {
    var visits := VisitsDuring(polls);
    if Flips(visits, mailbox, id) {
      OneTicketIff(visits, mailbox, id);
      var us :| SameButReplies(us, visits) && TicketsFor(HandleAll(EMPTY_WORLD, us).tickets, mailbox, id) > 1;
      var qs := PollsFor(polls, us);
      PollsHandleVisits(qs);
    } else {
      forall qs | SamePolls(qs, polls) ensures TicketsFor(AfterPolls(qs).world.tickets, mailbox, id) <= 1 {
        SamePollsVisit(qs, polls);
        if Flips(VisitsDuring(qs), mailbox, id) {
          SameFlips(VisitsDuring(qs), visits, mailbox, id);
        }
        PollsCreateOneTicket(qs, mailbox, id);
      }
    }
  }

  lemma LaterWorld(polls: seq<Poll>, n: nat) returns (later: seq<Visit>)
    requires n <= |polls|
    ensures AfterPolls(polls).world == HandleAll(AfterPolls(polls[..n]).world, later)
  {
    PollsHandleVisits(polls);
    PollsHandleVisits(polls[..n]);
    later := VisitsExtend(polls, n);
    HandleAllAppends(EMPTY_WORLD, VisitsDuring(polls[..n]), later);
  }

  /** And a row that says `created` after some of the polls is the same after all of them. */
  lemma PollsKeepCreated(polls: seq<Poll>, mailbox: Mailbox, id: string, n: nat)
    requires n <= |polls| && IsCreated(AfterPolls(polls[..n]).world, mailbox, id)
    ensures IsCreated(AfterPolls(polls).world, mailbox, id)
    ensures AfterPolls(polls).world.rows[(mailbox, id)] == AfterPolls(polls[..n]).world.rows[(mailbox, id)]
  {
    var later := LaterWorld(polls, n);
    CreatedIsFinal(AfterPolls(polls[..n]).world, later, mailbox, id);
  }

  lemma {:induction false} HandledHasRow(w: World, vs: seq<Visit>, v: Visit)
    requires v in vs && v.message.id != ""
    ensures (v.mailbox, v.message.id) in HandleAll(w, vs).rows
  {
    var front, last := vs[..|vs| - 1], vs[|vs| - 1];
    assert vs == front + [last];
    var x := HandleAll(w, front);
    CreationIsGuarded(x, last, RowKey(x, last.mailbox, last.message.id));
    if v in front {
      HandledHasRow(w, front, v);
    }
  }

  /** A message within the lookback has a row, whatever became of its ticket, after the first
      poll that reads its folder once it has appeared there. */
  lemma CoveredMailHasRow(
      polls: seq<Poll>, p: Poll, box: Box, m: Message, folder: Folder, limits: Limits)
    requires Answered(AfterPolls(polls), p) && m.id != ""
    requires forall q :: q in polls && q.mailbox == p.mailbox ==> q.settings == p.settings
    requires FirstLook(box, AttemptsOf(polls, p.mailbox), p.attempt, p.settings, m, folder, limits)
    requires IsMultiple(p.settings.lookback, limits.unit) && WithinLookback(p.settings, folder, limits)
    ensures (p.mailbox, m.id) in AfterPolls(polls + [p]).world.rows
  {
    var b := AfterPolls(polls);
    CheckpointIsOfAttempts(polls, p.mailbox, p.settings);
    FirstLookIsCovered(box, AttemptsOf(polls, p.mailbox), p.attempt, p.settings, m, folder, limits);
    assert (polls + [p])[..|polls|] == polls;
    var i :| 0 <= i < |ScannedBy(b, p)| && ScannedBy(b, p)[i] == m;
    HandledHasRow(b.world, VisitsBy(b, p), VisitsBy(b, p)[i]);
  }

  lemma FailedReadChangesNothing(b: Bot, p: Poll)
    requires p.attempt.inbox.None?
    ensures PollStep(b, p) == b
  {
    if p.mailbox in b.checkpoints {
      assert b.checkpoints[p.mailbox := b.checkpoints[p.mailbox]] == b.checkpoints;
    }
  }

  lemma SuccessfulReadSteps(b: Bot, p: Poll)
    requires Answered(b, p) && p.attempt.inbox.Some?
    ensures var latest := Latest(ScannedBy(b, p));
      PollStep(b, p) == Bot(HandleAll(b.world, VisitsBy(b, p)),
        if latest.Some? && p.attempt.internal.Some? then b.checkpoints[p.mailbox := latest.value] else b.checkpoints)
  {
    if p.mailbox in b.checkpoints {
      assert b.checkpoints[p.mailbox := b.checkpoints[p.mailbox]] == b.checkpoints;
    }
  }

  class AskHrBotJob {
    var rows: map<(Mailbox, string), Row>
    var reporterMode: ReporterMode
    var checkpoints: map<Mailbox, int>
    var runs: seq<RunRow>
    var tickets: seq<Ticket>            // Jira's side: every issue created on the bot's behalf
    var withEml: map<string, IssueKey>  // Jira's side: the issue found by a Message-ID search

    function TheWorld(): World
      reads this
    {
      World(rows, reporterMode, tickets, withEml)
    }

    function TheBot(): Bot
      reads this
    {
      Bot(TheWorld(), checkpoints)
    }

    function Checkpoint(mailbox: Mailbox): Option<int>
      reads this
    {
      CheckpointOf(TheBot(), mailbox)
    }

    method NewTicket(v: Visit) returns (key: Option<IssueKey>)
      modifies this`reporterMode, this`tickets
      ensures key.None? <==> CreateTicket(old(reporterMode), v.replies).None?
      ensures key.None? ==> TheWorld() == old(TheWorld())
      ensures key.Some? ==>
        && CreateTicket(old(reporterMode), v.replies) == Some((reporterMode, key.value))
        && tickets == old(tickets) + [Ticket(key.value, v.mailbox, v.message.id)]
    {
      key := None;
      var request, classic := v.replies.request, v.replies.classic;
      if reporterMode.ClassicReporterField? {
        if classic.Issue? {
          key := Some(classic.key);
        }
      } else if request.Issue? {
        if reporterMode.Unset? {
          reporterMode := RaiseOnBehalfOf;
        }
        key := Some(request.key);
      } else if reporterMode.Unset? && request.HttpError? && (request.status == 400 || request.status == 403) {
        if classic.Issue? {
          reporterMode := ClassicReporterField;
          key := Some(classic.key);
        }
      }
      if key.Some? {
        tickets := tickets + [Ticket(key.value, v.mailbox, v.message.id)];
      }
    }

    method AttachEmails(id: string, key: IssueKey, replies: Replies) returns (outcome: Outcome)
      modifies this`withEml
      ensures (TheWorld(), outcome) == AttachTo(old(TheWorld()), id, key, replies)
    {
      if !replies.eml.NotStored? && id !in withEml {
        withEml := withEml[id := key];
      }
      if !replies.eml.Stored? {
        return Done(Failed, key);
      }
      if replies.attachmentsRaise {
        return Raised;
      }
      return Done(Created, key);
    }

    method CreateOrAttachTicket(v: Visit, existing: Option<IssueKey>) returns (outcome: Outcome)
      modifies this`reporterMode, this`tickets, this`withEml
      ensures (TheWorld(), outcome) == CreateOrAttach(old(TheWorld()), v, existing)
    {
      var key := existing;
      if key.None? {
        if v.replies.lookup.None? {
          return Raised;
        }
        key := if v.message.id in withEml then Some(withEml[v.message.id]) else v.replies.lookup.value;
      }
      if key.None? {
        key := NewTicket(v);
        if key.None? {
          return Raised;
        }
      }
      outcome := AttachEmails(v.message.id, key.value, v.replies);
    }

    /** One turn of the message loop; says which status was written. */
    method HandleMessage(v: Visit) returns (written: Option<Status>)
      modifies this`rows, this`reporterMode, this`tickets, this`withEml
      ensures TheWorld() == Handle(old(TheWorld()), v)
      ensures written == Written(old(TheWorld()), v)
    {
      var at := (v.mailbox, v.message.id);
      if v.message.id == "" || (at in rows && rows[at].status.Created?) {
        return None;
      }
      var row := Row(SkippedInternalDomain, None);
      if ShouldProcess(v.message.sender, v.settings) {
        var existing := if at in rows then rows[at].key else None;
        var outcome := CreateOrAttachTicket(v, existing);
        row := match outcome case Done(status, key) => Row(status, Some(key)) case Raised => Row(Failed, existing);
      }
      rows := rows[at := row];
      written := Some(row.status);
    }

    /** The message loop, with its counters. */
    method HandleMessages(vs: seq<Visit>) returns (created: nat, skipped: nat, failed: nat)
      modifies this`rows, this`reporterMode, this`tickets, this`withEml
      ensures TheWorld() == HandleAll(old(TheWorld()), vs)
      ensures created == CountWritten(old(TheWorld()), vs, Created)
      ensures skipped == CountWritten(old(TheWorld()), vs, SkippedInternalDomain)
      ensures failed == CountWritten(old(TheWorld()), vs, Failed)
    {
      ghost var w := TheWorld();
      created, skipped, failed := 0, 0, 0;
      for i := 0 to |vs|
        invariant TheWorld() == HandleAll(w, vs[..i])
        invariant created == CountWritten(w, vs[..i], Created)
        invariant skipped == CountWritten(w, vs[..i], SkippedInternalDomain)
        invariant failed == CountWritten(w, vs[..i], Failed)
      {
        assert vs[..i + 1][..i] == vs[..i];
        var written := HandleMessage(vs[i]);
        if written == Some(Created) {
          created := created + 1;
        } else if written == Some(SkippedInternalDomain) {
          skipped := skipped + 1;
        } else if written == Some(Failed) {
          failed := failed + 1;
        }
      }
      assert vs[..|vs|] == vs;
    }

    /** The part of the message loop that tracks the latest receipt. */
    static method LatestReceipt(ms: seq<Message>) returns (latest: Option<int>)
      ensures latest == Latest(ms)
    {
      latest := None;
      for i := 0 to |ms|
        invariant latest == Latest(ms[..i])
      {
        assert ms[..i + 1][..i] == ms[..i];
        if ms[i].id != "" && (latest.None? || ms[i].receivedAt > latest.value) {
          latest := Some(ms[i].receivedAt);
        }
      }
      assert ms[..|ms|] == ms;
    }

    /** One poll of one mailbox: `ok` is false when reading the Inbox raises, and then
        nothing has changed. */
    method PollMailbox(mailbox: Mailbox, a: Attempt, settings: Settings, replies: seq<Replies>) returns (ok: bool)
      requires Answered(TheBot(), Poll(mailbox, a, settings, replies))
      modifies this
      ensures ok <==> a.inbox.Some?
      ensures TheBot() == PollStep(old(TheBot()), Poll(mailbox, a, settings, replies))
      ensures !ok ==> TheBot() == old(TheBot()) && runs == old(runs)
      ensures ok ==>
        var b, p := old(TheBot()), Poll(mailbox, a, settings, replies);
        && |runs| == |old(runs)| + 1 && runs[..|old(runs)|] == old(runs)
        && var run := runs[|old(runs)|];
        && run.mailbox == mailbox && run.scanned == |ScannedBy(b, p)|
        && run.created == CountWritten(b.world, VisitsBy(b, p), Created)
        && run.skipped == CountWritten(b.world, VisitsBy(b, p), SkippedInternalDomain)
        && run.failed == CountWritten(b.world, VisitsBy(b, p), Failed)
    {
      ghost var b, p := TheBot(), Poll(mailbox, a, settings, replies);
      if a.inbox.None? {
        FailedReadChangesNothing(b, p);
        return false;
      }
      var ms := Scanned(Checkpoint(mailbox), a, settings);
      var vs := VisitsOf(mailbox, ms, settings, replies);
      var created, skipped, failed := HandleMessages(vs);
      runs := runs + [RunRow(mailbox, |ms|, created, skipped, failed)];
      var latest := LatestReceipt(ms);
      if latest.Some? && a.internal.Some? {
        checkpoints := checkpoints[mailbox := latest.value];
      }
      SuccessfulReadSteps(b, p);
      ok := true;
    }
  }
}

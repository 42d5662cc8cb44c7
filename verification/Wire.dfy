/** Sending and closing: any number of threads send lines to any session, each session's owner closes its
    descriptor, and the system hands out the numbers of closed descriptors again. */
module Wire {
  import LineReader

  /** Where the owner of a connection stands. */
  datatype Owner =
    | Serving
    | ClosingFd     // holds the write mutex; `connected` is false, the descriptor still open
    | FdClosed      // holds the write mutex; the descriptor is closed
    | Gone

  /** The write mutex of a session. */
  datatype Mutex = Free | HeldByOwner | HeldBy(call: nat)

  datatype Session = Session(fd: nat, connected: bool, mutex: Mutex, owner: Owner)

  datatype Phase =
    | Wanting            // wants the write mutex
    | Holding            // holds it, and is about to look at `connected`
    | Sending(sent: nat) // holds it, and has sent so many characters

  /** A call of `send_line` under way. */
  datatype Sender = Sender(session: nat, line: string, phase: Phase)

  /** What a call of `send_line` was asked for. */
  datatype Request = Request(session: nat, message: string)

  /** Sessions, open descriptors and running calls of `send_line`, each under its own number. The rest records
      the run: all calls ever made, and per session the characters that reached its peer, the lines sent
      completely, the calls that sent them, and whether a send failed. */
  datatype Net = Net(
    sessions: map<nat, Session>, open: map<nat, nat>, senders: map<nat, Sender>, calls: map<nat, Request>,
    wire: map<nat, string>, lines: map<nat, seq<string>>, done: map<nat, seq<nat>>, broken: set<nat>)

  datatype Action =
    | Accept(session: nat, fd: nat)
    | Call(call: nat, session: nat, message: string)
    | Lock(call: nat)
    | Test(call: nat)
    | Push(call: nat, count: nat)
    | Interrupt(call: nat)
    | FailSend(call: nat)
    | Finish(call: nat)
    | Quit(session: nat)
    | OwnerLock(session: nat)
    | OwnerClose(session: nat)
    | OwnerUnlock(session: nat)

  predicate IsSending(n: Net, c: nat) {
    c in n.senders && n.senders[c].phase.Sending? && n.senders[c].session in n.sessions
  }

  predicate In(n: Net, c: nat, phase: Phase) {
    c in n.senders && n.senders[c].phase == phase && n.senders[c].session in n.sessions
  }

  predicate Stands(n: Net, sid: nat, owner: Owner) {
    sid in n.sessions && n.sessions[sid].owner == owner
  }

  predicate Enabled(n: Net, a: Action) {
    match a
    case Accept(sid, fd) => sid !in n.sessions && fd !in n.open
    case Call(c, sid, _) => c !in n.calls && sid in n.sessions
    case Lock(c) => In(n, c, Wanting) && n.sessions[n.senders[c].session].mutex.Free?
    case Test(c) => In(n, c, Holding)
    case Push(c, count) => IsSending(n, c) && 0 < count && n.senders[c].phase.sent + count <= |n.senders[c].line|
    case Interrupt(c) => IsSending(n, c)
    case FailSend(c) => IsSending(n, c) && n.senders[c].phase.sent < |n.senders[c].line|
    case Finish(c) => IsSending(n, c) && n.senders[c].phase.sent == |n.senders[c].line|
    case Quit(sid) => Stands(n, sid, Serving)
    case OwnerLock(sid) => Stands(n, sid, Serving) && n.sessions[sid].mutex.Free?
    case OwnerClose(sid) => Stands(n, sid, ClosingFd)
    case OwnerUnlock(sid) => Stands(n, sid, FdClosed)
  }

  function SetSession(n: Net, sid: nat, s: Session): Net {
    n.(sessions := n.sessions[sid := s])
  }

  function SetPhase(n: Net, c: nat, phase: Phase): Net
    requires c in n.senders
  {
    n.(senders := n.senders[c := n.senders[c].(phase := phase)])
  }

  /** The call returns and the mutex is released. */
  function Leave(n: Net, c: nat): Net
    requires c in n.senders && n.senders[c].session in n.sessions
  {
    var sid := n.senders[c].session;
    n.(senders := n.senders - {c}, sessions := n.sessions[sid := n.sessions[sid].(mutex := Free)])
  }

  function WireOf(n: Net, sid: nat): string {
    if sid in n.wire then n.wire[sid] else ""
  }

  function LinesOf(n: Net, sid: nat): seq<string> {
    if sid in n.lines then n.lines[sid] else []
  }

  function DoneOf(n: Net, sid: nat): seq<nat> {
    if sid in n.done then n.done[sid] else []
  }

  /** `send` on descriptor `fd`: the characters reach whoever has that descriptor now. */
  function SendOn(n: Net, fd: nat, piece: string): Net {
    if fd in n.open then n.(wire := n.wire[n.open[fd] := WireOf(n, n.open[fd]) + piece]) else n
  }

  function Step(n: Net, a: Action): Net
    requires Enabled(n, a)
  {
    match a
    case Accept(sid, fd) => SetSession(n, sid, Session(fd, true, Free, Serving)).(open := n.open[fd := sid])
    case Call(c, sid, message) =>
      n.(senders := n.senders[c := Sender(sid, message + "\n", Wanting)], calls := n.calls[c := Request(sid, message)])
    case Lock(c) =>
      var sid := n.senders[c].session;
      SetPhase(SetSession(n, sid, n.sessions[sid].(mutex := HeldBy(c))), c, Holding)
    case Test(c) => if n.sessions[n.senders[c].session].connected then SetPhase(n, c, Sending(0)) else Leave(n, c)
    case Push(c, count) =>
      var s := n.senders[c];
      var sent := s.phase.sent;
      SendOn(SetPhase(n, c, Sending(sent + count)), n.sessions[s.session].fd, s.line[sent..sent + count])
    case Interrupt(_) => n
    case FailSend(c) => Leave(n.(broken := n.broken + {n.senders[c].session}), c)
    case Finish(c) =>
      var sid := n.senders[c].session;
      Leave(n.(lines := n.lines[sid := LinesOf(n, sid) + [n.senders[c].line]], done := n.done[sid := DoneOf(n, sid) + [c]]), c)
    case Quit(sid) => SetSession(n, sid, n.sessions[sid].(connected := false))
    case OwnerLock(sid) => SetSession(n, sid, n.sessions[sid].(mutex := HeldByOwner, connected := false, owner := ClosingFd))
    case OwnerClose(sid) => SetSession(n, sid, n.sessions[sid].(owner := FdClosed)).(open := n.open - {n.sessions[sid].fd})
    case OwnerUnlock(sid) => SetSession(n, sid, n.sessions[sid].(mutex := Free, owner := Gone))
  }

  function Start(): Net {
    Net(map[], map[], map[], map[], map[], map[], map[], {})
  }

  ghost predicate CanRun(n: Net, run: seq<Action>)
    decreases |run|
  {
    run == [] || (Enabled(n, run[0]) && CanRun(Step(n, run[0]), run[1..]))
  }

  ghost function Exec(n: Net, run: seq<Action>): Net
    requires CanRun(n, run)
    decreases |run|
  {
    if run == [] then n else Exec(Step(n, run[0]), run[1..])
  }

  // ---- sessions and senders ------------------------------------------------------------------

  /** A session's descriptor is its own until it is closed, and a session no longer served refuses senders. */
  predicate SessionOk(s: Session, sid: nat, open: map<nat, nat>, senders: map<nat, Sender>) {
    && (s.owner.Serving? || s.owner.ClosingFd? ==> s.fd in open && open[s.fd] == sid)
    && (!s.owner.Serving? ==> !s.connected)
    && (s.owner.ClosingFd? || s.owner.FdClosed? <==> s.mutex.HeldByOwner?)
    && (s.mutex.HeldBy? ==> s.mutex.call in senders && senders[s.mutex.call].session == sid && !senders[s.mutex.call].phase.Wanting?)
  }

  /** A call past waiting holds the mutex, and one that sends does so to a session still served. */
  predicate SenderOk(s: Sender, c: nat, sessions: map<nat, Session>) {
    && s.session in sessions
    && (!s.phase.Wanting? ==> sessions[s.session].mutex == HeldBy(c))
    && (s.phase.Sending? ==> s.phase.sent <= |s.line| && sessions[s.session].owner.Serving?)
  }

  ghost predicate Linked(sessions: map<nat, Session>, open: map<nat, nat>, senders: map<nat, Sender>) {
    && (forall sid {:trigger sessions[sid]} :: sid in sessions ==> SessionOk(sessions[sid], sid, open, senders))
    && (forall c {:trigger senders[c]} :: c in senders ==> SenderOk(senders[c], c, sessions))
  }

  /** A call takes the mutex, moves on, or returns: one session and one sender change, and agree. */
  lemma OneCallMoves(
    sessions: map<nat, Session>, open: map<nat, nat>, senders: map<nat, Sender>,
    c: nat, session': Session, senders': map<nat, Sender>)
    requires Linked(sessions, open, senders) && c in senders
    requires
      var sid := senders[c].session;
      && sid in sessions && session' == sessions[sid].(mutex := session'.mutex)
      && (sessions[sid].mutex == HeldBy(c) || sessions[sid].mutex == Free)
      && (if c in senders' then
            && senders' == senders[c := senders'[c]] && senders'[c].session == sid && session'.mutex == HeldBy(c)
            && !senders'[c].phase.Wanting? && SenderOk(senders'[c], c, sessions[sid := session'])
          else senders' == senders - {c} && session'.mutex == Free)
    ensures Linked(sessions[senders[c].session := session'], open, senders')
  {
    var sid := senders[c].session;
    var sessions' := sessions[sid := session'];
    forall x | x in sessions' ensures SessionOk(sessions'[x], x, open, senders') {
      assert SessionOk(sessions[x], x, open, senders);
    }
    forall x | x in senders' ensures SenderOk(senders'[x], x, sessions') {
      assert SenderOk(senders[x], x, sessions);
    }
  }

  /** The owner of a session moves on while no call holds the session's mutex. */
  lemma OneOwnerMoves(
    sessions: map<nat, Session>, open: map<nat, nat>, senders: map<nat, Sender>,
    sid: nat, session': Session, open': map<nat, nat>)
    requires Linked(sessions, open, senders) && sid in sessions && !sessions[sid].mutex.HeldBy? && !session'.mutex.HeldBy?
    requires SessionOk(session', sid, open', senders)
    requires forall fd :: fd in open && open[fd] != sid ==> fd in open' && open'[fd] == open[fd]
    ensures Linked(sessions[sid := session'], open', senders)
  {
    var sessions' := sessions[sid := session'];
    forall x | x in sessions' ensures SessionOk(sessions'[x], x, open', senders) {
      if x != sid { assert SessionOk(sessions[x], x, open, senders); }
    }
    forall x | x in senders ensures SenderOk(senders[x], x, sessions') {
      assert SenderOk(senders[x], x, sessions);
    }
  }

  lemma AcceptLinks(sessions: map<nat, Session>, open: map<nat, nat>, senders: map<nat, Sender>, sid: nat, fd: nat)
    requires Linked(sessions, open, senders) && sid !in sessions && fd !in open
    ensures Linked(sessions[sid := Session(fd, true, Free, Serving)], open[fd := sid], senders)
  {
    var sessions', open' := sessions[sid := Session(fd, true, Free, Serving)], open[fd := sid];
    forall x | x in sessions' ensures SessionOk(sessions'[x], x, open', senders) {
      if x != sid { assert SessionOk(sessions[x], x, open, senders); }
    }
    forall x | x in senders ensures SenderOk(senders[x], x, sessions') {
      assert SenderOk(senders[x], x, sessions);
    }
  }

  lemma CallLinks(sessions: map<nat, Session>, open: map<nat, nat>, senders: map<nat, Sender>, c: nat, s: Sender)
    requires Linked(sessions, open, senders) && c !in senders && s.phase.Wanting? && s.session in sessions
    ensures Linked(sessions, open, senders[c := s])
  {
    forall x | x in sessions ensures SessionOk(sessions[x], x, open, senders[c := s]) {
      assert SessionOk(sessions[x], x, open, senders);
    }
  }

  lemma QuitLinks(sessions: map<nat, Session>, open: map<nat, nat>, senders: map<nat, Sender>, sid: nat)
    requires Linked(sessions, open, senders) && sid in sessions
    ensures Linked(sessions[sid := sessions[sid].(connected := false)], open, senders)
  {
    var sessions' := sessions[sid := sessions[sid].(connected := false)];
    forall x | x in sessions' ensures SessionOk(sessions'[x], x, open, senders) {
      assert SessionOk(sessions[x], x, open, senders);
    }
    forall x | x in senders ensures SenderOk(senders[x], x, sessions') {
      assert SenderOk(senders[x], x, sessions);
    }
  }

  // ---- lines and calls -----------------------------------------------------------------------

  /** A call under way sends its own message with a line feed behind it. */
  predicate Asked(n: Net, c: nat, s: Sender) {
    c in n.calls && n.calls[c].session == s.session && s.line == n.calls[c].message + "\n"
  }

  /** The completed lines of a session are the messages of finished calls to it, each call once. */
  ghost predicate DoneOk(n: Net, sid: nat) {
    var lines, done := LinesOf(n, sid), DoneOf(n, sid);
    && |lines| == |done|
    && (forall i :: 0 <= i < |done| ==> done[i] in n.calls && done[i] !in n.senders)
    && (forall i :: 0 <= i < |done| ==> n.calls[done[i]].session == sid && lines[i] == n.calls[done[i]].message + "\n")
    && (forall i, j :: 0 <= i < j < |done| ==> done[i] != done[j])
  }

  ghost predicate CallsOk(n: Net) {
    && (forall c {:trigger n.senders[c]} :: c in n.senders ==> Asked(n, c, n.senders[c]))
    && (forall sid {:trigger DoneOf(n, sid)} :: DoneOk(n, sid))
  }

  ghost predicate Inv(n: Net) {
    && Linked(n.sessions, n.open, n.senders)
    && CallsOk(n)
  }

  lemma CallsStay(n: Net, n': Net)
    requires CallsOk(n) && n'.calls == n.calls && n'.lines == n.lines && n'.done == n.done
    requires forall c {:trigger n'.senders[c]} :: c in n'.senders ==>
               c in n.senders && n'.senders[c].session == n.senders[c].session && n'.senders[c].line == n.senders[c].line
    ensures CallsOk(n')
  {
    forall sid ensures DoneOk(n', sid) {
      assert DoneOf(n', sid) == DoneOf(n, sid) && DoneOk(n, sid);
    }
  }

  lemma CallIsAsked(n: Net, c: nat, sid: nat, message: string)
    requires CallsOk(n) && Enabled(n, Call(c, sid, message))
    ensures CallsOk(Step(n, Call(c, sid, message)))
  {
    var n' := Step(n, Call(c, sid, message));
    forall x ensures DoneOk(n', x) {
      assert DoneOf(n', x) == DoneOf(n, x) && DoneOk(n, x);
    }
  }

  lemma FinishIsDone(n: Net, c: nat)
    requires CallsOk(n) && Enabled(n, Finish(c))
    ensures CallsOk(Step(n, Finish(c)))
  {
    var n', s := Step(n, Finish(c)), n.senders[c];
    assert Asked(n, c, s);
    forall x ensures DoneOk(n', x) {
      assert DoneOf(n, x) == DoneOf(n, x) && DoneOk(n, x);
    }
  }

  // ---- every step ----------------------------------------------------------------------------

  predicate IsSenderStep(a: Action) {
    a.Lock? || a.Test? || a.Push? || a.Interrupt? || a.FailSend? || a.Finish?
  }

  lemma SendersStay(n: Net, a: Action)
    requires Inv(n) && Enabled(n, a) && IsSenderStep(a)
    ensures var n' := Step(n, a); Linked(n'.sessions, n'.open, n'.senders)
  {
    hide Linked, CallsOk, WireOf, LinesOf, DoneOf;
    if !a.Interrupt? {
      var c := a.call;
      CallIsLinked(n, c);
      OneCallMoves(n.sessions, n.open, n.senders, c, Step(n, a).sessions[n.senders[c].session], Step(n, a).senders);
    }
    match a {
      case Lock(c) =>
      case Test(c) => SameSession(n.sessions, n.senders[c].session);
      case Push(c, count) => SameSession(n.sessions, n.senders[c].session);
      case Interrupt(c) =>
      case FailSend(c) =>
      case Finish(c) =>
    }
  }

  lemma SameSession(sessions: map<nat, Session>, sid: nat)
    requires sid in sessions
    ensures sessions[sid := sessions[sid]] == sessions
  {
  }

  lemma CallIsLinked(n: Net, c: nat)
    requires Inv(n) && c in n.senders
    ensures SenderOk(n.senders[c], c, n.sessions)
    ensures SessionOk(n.sessions[n.senders[c].session], n.senders[c].session, n.open, n.senders)
  {
    hide CallsOk;
  }

  lemma OwnersStay(n: Net, a: Action)
    requires Inv(n) && Enabled(n, a) && !IsSenderStep(a)
    ensures var n' := Step(n, a); Linked(n'.sessions, n'.open, n'.senders)
  {
    hide Linked, CallsOk;
    match a {
      case Accept(sid, fd) => AcceptLinks(n.sessions, n.open, n.senders, sid, fd);
      case Call(c, sid, message) =>
        FreshCall(n, c);
        CallLinks(n.sessions, n.open, n.senders, c, Sender(sid, message + "\n", Wanting));
      case Quit(sid) => QuitLinks(n.sessions, n.open, n.senders, sid);
      case OwnerLock(sid) =>
        SessionIsLinked(n, sid);
        OneOwnerMoves(n.sessions, n.open, n.senders, sid, Step(n, a).sessions[sid], n.open);
      case OwnerClose(sid) =>
        SessionIsLinked(n, sid);
        OneOwnerMoves(n.sessions, n.open, n.senders, sid, Step(n, a).sessions[sid], Step(n, a).open);
      case OwnerUnlock(sid) =>
        SessionIsLinked(n, sid);
        OneOwnerMoves(n.sessions, n.open, n.senders, sid, Step(n, a).sessions[sid], n.open);
    }
  }

  lemma FreshCall(n: Net, c: nat)
    requires CallsOk(n) && c !in n.calls
    ensures c !in n.senders
  {
  }

  lemma SessionIsLinked(n: Net, sid: nat)
    requires Inv(n) && sid in n.sessions
    ensures SessionOk(n.sessions[sid], sid, n.open, n.senders)
  {
    hide CallsOk;
  }

  /** Steps that neither begin nor complete a call. */
  lemma OthersKeepCalls(n: Net, a: Action)
    requires CallsOk(n) && Enabled(n, a) && !a.Call? && !a.Finish?
    ensures CallsOk(Step(n, a))
  {
    hide CallsOk, Enabled, Step;
    OthersKeepRecord(n, a);
    CallsStay(n, Step(n, a));
  }

  /** Nothing is recorded, and no call in flight changes its session or line. */
  ghost predicate KeepsRecord(n: Net, n': Net) {
    && n'.calls == n.calls && n'.lines == n.lines && n'.done == n.done
    && forall c {:trigger n'.senders[c]} :: c in n'.senders ==>
         c in n.senders && n'.senders[c].session == n.senders[c].session && n'.senders[c].line == n.senders[c].line
  }

  lemma PhaseKeepsRecord(n: Net, c: nat, phase: Phase)
    requires c in n.senders
    ensures KeepsRecord(n, SetPhase(n, c, phase))
  {
  }

  lemma LeavingKeepsRecord(n: Net, c: nat)
    requires c in n.senders && n.senders[c].session in n.sessions
    ensures KeepsRecord(n, Leave(n, c))
  {
  }

  lemma OthersKeepRecord(n: Net, a: Action)
    requires Enabled(n, a) && !a.Call? && !a.Finish?
    ensures KeepsRecord(n, Step(n, a))
  {
    hide WireOf, SetPhase, Leave;
    match a {
      case Lock(c) => PhaseKeepsRecord(SetSession(n, n.senders[c].session, n.sessions[n.senders[c].session].(mutex := HeldBy(c))), c, Holding);
      case Test(c) =>
        PhaseKeepsRecord(n, c, Sending(0));
        LeavingKeepsRecord(n, c);
      case Push(c, count) => PhaseKeepsRecord(n, c, Sending(n.senders[c].phase.sent + count));
      case FailSend(c) => LeavingKeepsRecord(n.(broken := n.broken + {n.senders[c].session}), c);
      case _ =>
    }
  }

  lemma StepKeeps(n: Net, a: Action)
    requires Inv(n) && Enabled(n, a)
    ensures Inv(Step(n, a))
  {
    hide Linked, CallsOk, Enabled, Step;
    if IsSenderStep(a) { SendersStay(n, a); } else { OwnersStay(n, a); }
    match a {
      case Call(c, sid, message) => CallIsAsked(n, c, sid, message);
      case Finish(c) => FinishIsDone(n, c);
      case _ => OthersKeepCalls(n, a);
    }
  }

  // ---- what reaches the peers ----------------------------------------------------------------

  /** The part of a line that the holder of the session's mutex has sent. */
  function InFlight(n: Net, sid: nat): string {
    if sid in n.sessions && n.sessions[sid].mutex.HeldBy? then SentBy(n.senders, n.sessions[sid].mutex.call) else ""
  }

  function SentBy(senders: map<nat, Sender>, c: nat): string {
    if c in senders && senders[c].phase.Sending? && senders[c].phase.sent <= |senders[c].line|
    then senders[c].line[..senders[c].phase.sent] else ""
  }

  /** Unless a send failed, a session's peer has received whole lines and the part of one in flight. */
  ghost predicate WireOk(n: Net, sid: nat) {
    sid !in n.broken ==> WireOf(n, sid) == LineReader.Flat(LinesOf(n, sid)) + InFlight(n, sid)
  }

  ghost predicate WiresOk(n: Net) {
    forall sid {:trigger WireOf(n, sid)} :: WireOk(n, sid)
  }

  lemma {:induction false} FlatSnoc(lines: seq<string>, line: string)
    ensures LineReader.Flat(lines + [line]) == LineReader.Flat(lines) + line
  {
    if lines != [] {
      assert (lines + [line])[1..] == lines[1..] + [line];
      FlatSnoc(lines[1..], line);
      assert (lines + [line])[0] == lines[0];
    } else {
      assert LineReader.Flat([line]) == line + LineReader.Flat([]);
    }
  }

  /** A piece sent: it reaches the sender's own session, whose line in flight grows by it. */
  lemma PushKeeps(n: Net, c: nat, count: nat, sid: nat)
    requires Inv(n) && Enabled(n, Push(c, count)) && WireOk(n, sid)
    ensures WireOk(Step(n, Push(c, count)), sid)
  {
    hide Linked, CallsOk, WireOk, InFlight;
    CallIsLinked(n, c);
    if sid == n.senders[c].session {
      PushOwn(n, c, count);
    } else {
      OtherFlight(n, c, sid);
      ElsewhereSame(n, Step(n, Push(c, count)), c, sid);
      SameWire(n, Step(n, Push(c, count)), sid);
    }
  }

  lemma PushOwn(n: Net, c: nat, count: nat)
    requires Enabled(n, Push(c, count)) && WireOk(n, n.senders[c].session)
    requires
      var s := n.sessions[n.senders[c].session];
      s.mutex == HeldBy(c) && s.fd in n.open && n.open[s.fd] == n.senders[c].session
    ensures WireOk(Step(n, Push(c, count)), n.senders[c].session)
  {
    var s := n.senders[c];
    Grown(LineReader.Flat(LinesOf(n, s.session)), s.line, s.phase.sent, count);
  }

  lemma Grown(past: string, line: string, sent: nat, count: nat)
    requires sent + count <= |line|
    ensures (past + line[..sent]) + line[sent..sent + count] == past + line[..sent + count]
  {
    assert line[..sent] + line[sent..sent + count] == line[..sent + count];
  }

  /** The mutex of another session is held by another call, if by any. */
  lemma OtherFlight(n: Net, c: nat, sid: nat)
    requires Inv(n) && c in n.senders && n.senders[c].session != sid
    ensures sid in n.sessions && n.sessions[sid].mutex.HeldBy? ==> n.sessions[sid].mutex.call != c
  {
    hide Linked, CallsOk;
    if sid in n.sessions { SessionIsLinked(n, sid); }
  }

  lemma FinishKeeps(n: Net, c: nat, sid: nat)
    requires Inv(n) && Enabled(n, Finish(c)) && WireOk(n, sid)
    ensures WireOk(Step(n, Finish(c)), sid)
  {
    hide Linked, CallsOk;
    var s := n.senders[c];
    CallIsLinked(n, c);
    assert s.line[..|s.line|] == s.line;
    if sid == s.session {
      FlatSnoc(LinesOf(n, sid), s.line);
    } else {
      OtherFlight(n, c, sid);
      ElsewhereSame(n, Step(n, Finish(c)), c, sid);
    }
  }

  /** Steps of a sender that send nothing and complete nothing. */
  lemma SenderQuiet(n: Net, a: Action, sid: nat)
    requires Inv(n) && Enabled(n, a) && IsSenderStep(a) && !a.Push? && !a.Finish? && WireOk(n, sid)
    ensures WireOk(Step(n, a), sid)
  {
    hide Linked, CallsOk, WireOk, InFlight, WireOf, LinesOf, DoneOf;
    CallIsLinked(n, a.call);
    QuietShape(n, a, sid);
    if sid == n.senders[a.call].session {
      OwnFlight(n, a);
    } else {
      OtherFlight(n, a.call, sid);
      ElsewhereSame(n, Step(n, a), a.call, sid);
    }
    SameWire(n, Step(n, a), sid);
  }

  lemma QuietShape(n: Net, a: Action, sid: nat)
    requires Enabled(n, a) && IsSenderStep(a) && !a.Push? && !a.Finish?
    ensures
      var n', c := Step(n, a), a.call;
      && n'.wire == n.wire && n'.lines == n.lines && n.broken <= n'.broken
      && WireOf(n', sid) == WireOf(n, sid) && LinesOf(n', sid) == LinesOf(n, sid)
      && (sid != n.senders[c].session ==>
            (sid in n'.sessions <==> sid in n.sessions) && (sid in n.sessions ==> n'.sessions[sid] == n.sessions[sid]))
      && (forall x {:trigger n'.senders[x]} {:trigger x in n'.senders} :: x != c ==>
            (x in n'.senders <==> x in n.senders) && (x in n.senders ==> n'.senders[x] == n.senders[x]))
  {
    match a {
      case Lock(c) =>
      case Test(c) =>
      case Interrupt(c) =>
      case FailSend(c) =>
    }
  }

  /** Before it sends and when it gives up a call has nothing in flight, or the session is broken. */
  lemma OwnFlight(n: Net, a: Action)
    requires Enabled(n, a) && (a.Lock? || a.Test? || a.Interrupt? || a.FailSend?)
    requires
      var sid := n.senders[a.call].session;
      n.senders[a.call].phase.Wanting? || n.sessions[sid].mutex == HeldBy(a.call)
    ensures
      var n', sid := Step(n, a), n.senders[a.call].session;
      sid in n'.broken || InFlight(n', sid) == InFlight(n, sid)
  {
    match a {
      case Lock(c) =>
      case Test(c) =>
      case Interrupt(c) =>
      case FailSend(c) =>
    }
  }

  lemma ElsewhereSame(n: Net, n': Net, c: nat, sid: nat)
    requires sid in n.sessions && n.sessions[sid].mutex.HeldBy? ==> n.sessions[sid].mutex.call != c
    requires (sid in n'.sessions <==> sid in n.sessions) && (sid in n.sessions ==> n'.sessions[sid] == n.sessions[sid])
    requires forall x {:trigger n'.senders[x]} {:trigger x in n'.senders} :: x != c ==>
               (x in n'.senders <==> x in n.senders) && (x in n.senders ==> n'.senders[x] == n.senders[x])
    ensures InFlight(n', sid) == InFlight(n, sid)
  {
  }

  lemma SameWire(n: Net, n': Net, sid: nat)
    requires WireOk(n, sid) && WireOf(n', sid) == WireOf(n, sid) && LinesOf(n', sid) == LinesOf(n, sid)
    requires n.broken <= n'.broken && (sid in n'.broken || InFlight(n', sid) == InFlight(n, sid))
    ensures WireOk(n', sid)
  {
  }

  lemma OwnerQuiet(n: Net, a: Action, sid: nat)
    requires Inv(n) && Enabled(n, a) && !IsSenderStep(a) && WireOk(n, sid)
    ensures WireOk(Step(n, a), sid)
  {
    hide Linked, CallsOk, WireOk;
    if sid in n.sessions { SessionIsLinked(n, sid); }
    if a.Call? { FreshCall(n, a.call); }
    SameWire(n, Step(n, a), sid);
  }

  lemma StepKeepsWires(n: Net, a: Action)
    requires Inv(n) && WiresOk(n) && Enabled(n, a)
    ensures WiresOk(Step(n, a))
  {
    hide Inv, WireOk, Enabled;
    var n' := Step(n, a);
    forall sid ensures WireOk(n', sid) {
      assert WireOk(n, sid) by { assert WireOf(n, sid) == WireOf(n, sid); }
      match a {
        case Push(c, count) => PushKeeps(n, c, count, sid);
        case Finish(c) => FinishKeeps(n, c, sid);
        case _ => if IsSenderStep(a) { SenderQuiet(n, a, sid); } else { OwnerQuiet(n, a, sid); }
      }
    }
  }

  lemma {:induction false} ExecKeeps(n: Net, run: seq<Action>)
    requires Inv(n) && WiresOk(n) && CanRun(n, run)
    ensures Inv(Exec(n, run)) && WiresOk(Exec(n, run))
    decreases |run|
  {
    hide Inv, WiresOk, Enabled, Step;
    if run != [] {
      StepKeeps(n, run[0]);
      StepKeepsWires(n, run[0]);
      ExecKeeps(Step(n, run[0]), run[1..]);
    }
  }

  // ---- what every run promises ---------------------------------------------------------------

  lemma RunOk(run: seq<Action>)
    requires CanRun(Start(), run)
    ensures Inv(Exec(Start(), run)) && WiresOk(Exec(Start(), run))
  {
    hide CanRun, Exec, Inv, WiresOk;
    StartOk();
    ExecKeeps(Start(), run);
  }

  lemma StartOk()
    ensures Inv(Start()) && WiresOk(Start())
  {
    assert CallsOk(Start()) by {
      forall sid ensures DoneOk(Start(), sid) {
        assert DoneOf(Start(), sid) == [] && LinesOf(Start(), sid) == [];
      }
    }
    forall sid ensures WireOk(Start(), sid) {
      var none: seq<string> := LinesOf(Start(), sid);
      assert none == [] && LineReader.Flat(none) == "" && InFlight(Start(), sid) == "" && WireOf(Start(), sid) == "";
      assert WireOf(Start(), sid) == LineReader.Flat(none) + InFlight(Start(), sid);
    }
  }

  /** Each peer receives whole lines followed by the part sent so far of the line of the call that holds the
      session's write mutex, unless a send on the session failed. The whole lines are the messages, each with
      its line feed, that different calls were asked to send to this session. */
  lemma WholeLinesOnly(run: seq<Action>, sid: nat)
    requires CanRun(Start(), run)
    ensures
      var n := Exec(Start(), run);
      var lines, done := LinesOf(n, sid), DoneOf(n, sid);
      && (sid !in n.broken ==> WireOf(n, sid) == LineReader.Flat(lines) + InFlight(n, sid))
      && |lines| == |done|
      && (forall i :: 0 <= i < |done| ==> done[i] in n.calls)
      && (forall i :: 0 <= i < |done| ==> n.calls[done[i]].session == sid && lines[i] == n.calls[done[i]].message + "\n")
      && (forall i, j :: 0 <= i < j < |done| ==> done[i] != done[j])
  {
    hide CanRun, Exec, Linked, InFlight;
    RunOk(run);
    var n := Exec(Start(), run);
    assert WireOk(n, sid) && DoneOk(n, sid) by { assert WireOf(n, sid) == WireOf(n, sid) && DoneOf(n, sid) == DoneOf(n, sid); }
  }

  /** The messages of some calls. */
  function MessagesOf(calls: map<nat, Request>, done: seq<nat>): seq<string> {
    seq(|done|, i requires 0 <= i < |done| => if done[i] in calls then calls[done[i]].message else "")
  }

  /** A line sent completely but not yet accounted for. */
  function Finishing(n: Net, sid: nat): seq<string> {
    if sid in n.sessions && n.sessions[sid].mutex.HeldBy? then
      var c := n.sessions[sid].mutex.call;
      if c in n.senders && c in n.calls && n.senders[c].phase == Sending(|n.senders[c].line|) then [n.calls[c].message] else []
    else []
  }

  lemma {:induction false} LinesOfMessages(lines: seq<string>, messages: seq<string>, rest: string)
    requires |lines| == |messages|
    requires forall i :: 0 <= i < |lines| ==> lines[i] == messages[i] + "\n" && LineReader.FirstLf(messages[i]) == |messages[i]|
    ensures LineReader.RawLines(LineReader.Flat(lines) + rest) == messages + LineReader.RawLines(rest)
    decreases |lines|
  {
    hide LineReader.RawLines, LineReader.FirstLf;
    if lines == [] {
      assert LineReader.Flat(lines) + rest == rest;
    } else {
      var tail := LineReader.Flat(lines[1..]) + rest;
      LinesOfMessages(lines[1..], messages[1..], rest);
      assert LineReader.Flat(lines) + rest == (messages[0] + "\n") + tail;
      FirstMessage(messages[0], tail);
      Uncons(messages, LineReader.RawLines(rest));
    }
  }

  lemma FirstMessage(message: string, tail: string)
    requires LineReader.FirstLf(message) == |message|
    ensures LineReader.RawLines((message + "\n") + tail) == [message] + LineReader.RawLines(tail)
  {
    hide LineReader.RawLines, LineReader.FirstLf;
    LineReader.OneLine(message);
    LineReader.LinesOfSum(message + "\n", tail);
    assert "" + tail == tail;
  }

  lemma Uncons(messages: seq<string>, rest: seq<string>)
    requires messages != []
    ensures [messages[0]] + (messages[1..] + rest) == messages + rest
  {
  }

  lemma {:induction false} NoLfInFront(line: string, k: nat)
    requires k <= |line| && LineReader.FirstLf(line) == |line|
    ensures LineReader.RawLines(line[..k]) == []
  {
    LineReader.FirstLfUnique(line[..k], k);
  }

  /** Splitting what a peer received at the line feeds gives back the messages it was sent, if no message
      holds a line feed itself and no send failed: those of the finished calls, in the order in which they
      finished, and that of a call whose line is out but which has not returned yet. */
  lemma PeerReadsTheMessages(run: seq<Action>, sid: nat)
    requires CanRun(Start(), run) && sid !in Exec(Start(), run).broken
    requires forall c {:trigger Exec(Start(), run).calls[c]} :: c in Exec(Start(), run).calls ==>
               LineReader.FirstLf(Exec(Start(), run).calls[c].message) == |Exec(Start(), run).calls[c].message|
    ensures
      var n := Exec(Start(), run);
      LineReader.RawLines(WireOf(n, sid)) == MessagesOf(n.calls, DoneOf(n, sid)) + Finishing(n, sid)
  {
    hide CanRun, Exec, Linked, CallsOk, LineReader.RawLines, LineReader.FirstLf;
    WholeLinesOnly(run, sid);
    RunOk(run);
    var n := Exec(Start(), run);
    LinesOfMessages(LinesOf(n, sid), MessagesOf(n.calls, DoneOf(n, sid)), InFlight(n, sid));
    FlightLines(n, sid);
  }

  lemma FlightLines(n: Net, sid: nat)
    requires Inv(n)
    requires forall c {:trigger n.calls[c]} :: c in n.calls ==> LineReader.FirstLf(n.calls[c].message) == |n.calls[c].message|
    ensures LineReader.RawLines(InFlight(n, sid)) == Finishing(n, sid)
  {
    hide Linked, LineReader.RawLines, LineReader.FirstLf;
    assert LineReader.RawLines("") == [] by { LineReader.FirstLfUnique("", 0); NothingRead(); }
    if sid in n.sessions && n.sessions[sid].mutex.HeldBy? {
      var c := n.sessions[sid].mutex.call;
      if c in n.senders && n.senders[c].phase.Sending? && n.senders[c].phase.sent <= |n.senders[c].line| {
        assert Asked(n, c, n.senders[c]);
        var message, k := n.calls[c].message, n.senders[c].phase.sent;
        if k == |message| + 1 {
          assert (message + "\n")[..k] == message + "\n";
          LineReader.OneLine(message);
        } else {
          assert (message + "\n")[..k] == message[..k];
          NoLfInFront(message, k);
        }
      }
    }
  }

  lemma NothingRead()
    ensures LineReader.RawLines("") == []
  {
  }

  /** A call that sends holds the mutex of its session, and the descriptor it sends on is still that
      session's: no character goes to a descriptor that was closed, or that another session got since. */
  lemma SendsHitTheirSession(run: seq<Action>, c: nat)
    requires CanRun(Start(), run) && IsSending(Exec(Start(), run), c)
    ensures
      var n := Exec(Start(), run);
      var s := n.sessions[n.senders[c].session];
      s.fd in n.open && n.open[s.fd] == n.senders[c].session && s.mutex == HeldBy(c)
  {
    hide CanRun, Exec, WiresOk, Linked, CallsOk;
    RunOk(run);
    CallIsLinked(Exec(Start(), run), c);
  }

  predicate IsClosed(n: Net, sid: nat) {
    sid in n.sessions && (n.sessions[sid].owner.FdClosed? || n.sessions[sid].owner.Gone?)
  }

  lemma ClosedStep(n: Net, a: Action, sid: nat)
    requires Inv(n) && Enabled(n, a) && IsClosed(n, sid)
    ensures IsClosed(Step(n, a), sid) && WireOf(Step(n, a), sid) == WireOf(n, sid)
  {
    hide Linked, CallsOk, LinesOf, DoneOf;
    if IsSenderStep(a) { CallIsLinked(n, a.call); }
    match a {
      case Push(c, count) =>
      case Finish(c) =>
      case _ =>
    }
  }

  /** Once the owner has closed the descriptor, the peer receives nothing more, whoever gets the number. */
  lemma {:induction false} NothingAfterClose(n: Net, run: seq<Action>, sid: nat)
    requires Inv(n) && CanRun(n, run) && IsClosed(n, sid)
    ensures WireOf(Exec(n, run), sid) == WireOf(n, sid)
    decreases |run|
  {
    hide Inv, Enabled, Step, WireOf, IsClosed;
    if run != [] {
      StepKeeps(n, run[0]);
      ClosedStep(n, run[0], sid);
      NothingAfterClose(Step(n, run[0]), run[1..], sid);
    }
  }
}

/**
 The threads of a node, lock by lock.

 Every thread has a program counter; one step is one lock operation, one write
 of an atomic, or one piece of work between them.  `d` and `c` are the owners of
 m_data_access and m_callback_access.  Callbacks are steps that do not re-enter
 the node.
 */
module Protocol {
  import opened Common
  import opened ListenerFlags

  datatype Thread = Listen | Connect | Send | User(u: nat)

  /** The stages of telling the user something with the data mutex held: lock C,
      look at the callback, run it with C released, lock C again, release it. */
  datatype Tell = Want | Hold | Running | Rewant | Held

  datatype ListenPC =
    | LUnstarted
    | LTop               // while(m_listen_thread_running)
    | LTest              // enabled && !available
    | LTestChanging
    | LTestStop          // !enabled && available
    | LOpenWant          // D wanted
    | LOpening           // D held
    | LOpenFailed(t: Tell)
    | LOpenOk(t: Tell)
    | LOpenDone          // D held, changing := false, D released
    | LCloseWant
    | LClosing           // D held
    | LClosedWant        // D held, C wanted
    | LClosed            // D and C held
    | LClosedCallback    // C held, D released
    | LRelock            // C held, D wanted
    | LClosedEnd         // D and C held
    | LClosedEnd2        // D held
    | LClear             // wakeup := false
    | LPauseWant
    | LPause             // D held, predicate
    | LBlocked           // on the condition variable
    | LCheckQuit
    | LMainWant
    | LMain(work: nat)   // D held: accept, receive, delete
    | LMainTell(work: nat, t: Tell)
    | LExited

  datatype ConnectPC =
    | KUnstarted
    | KTop
    | KReadWant
    | KRead
    | KPauseWant
    | KPause
    | KBlocked
    | KCycle(i: nat, q: nat)
    | KFrontWant(i: nat, q: nat)
    | KFront(i: nat, q: nat)
    | KTry(i: nat, q: nat, left: nat)   // connect attempts the time limit still allows
    | KLostWant(i: nat, q: nat)
    | KLost(i: nat, q: nat)
    | KWonWant(i: nat, q: nat)
    | KWon(i: nat, q: nat)
    | KTellWant(i: nat, q: nat)
    | KTell(i: nat, q: nat)
    | KPopWant
    | KPop
    | KExited

  datatype SendPC =
    | SUnstarted
    | STop
    | SWant
    | SCount
    | SPauseWant
    | SPause
    | SBlocked
    | SReWant
    | SHandle
    | STell(t: Tell)
    | SPop
    | SExited

  datatype UserPC =
    | UIdle
    | UWant(op: DataCall)
    | UData(op: DataCall)
    | UListenChange
    | UListenWake
    | USendWant          // D held, C wanted
    | USendError         // D and C held, callback
    | USendEnd
    | USetWant           // C wanted: installing a callback
    | USet
    | UStopWake
    | UStart             // _startListenThreadIfNotRunning
    | UStartWant
    | UStarting
    | QConnect           // the destructor, thread by thread
    | QConnectJoin
    | QSend
    | QSendJoin
    | QListen
    | QListenJoin
    | QWant
    | QData
    | QDone

  /** Calls that lock the data mutex. */
  datatype DataCall = DoListen | SetListener | ConnectTo | SendData | OtherCall

  datatype Call = CallData(op: DataCall) | CallStopListening | CallSetCallback | CallDestructor

  /** What a listener is opened with. */
  datatype Target = Target(port: nat, version: IpVersion)

  /** Everything a step does not decide itself. */
  datatype Choice = Choice(ok: bool, told: bool, gain: bool, lose: bool, n: nat, call: Call, target: Target)

  datatype State = State(
    relock: bool,        // does line 336 take D again while C is held?
    d: Option<Thread>,
    c: Option<Thread>,
    l: ListenPC,
    k: ConnectPC,
    s: SendPC,
    u: map<nat, UserPC>,
    f: Flags,
    quit: bool,          // m_destructor_called
    listenRun: bool,
    connectRun: bool,
    sendRun: bool,
    peers: nat,
    queue: nat,
    outbox: nat,
    starter: Option<nat>,           // the user inside doListen or connectTo: one at a time
    enabledAt: Option<ListenPC>,    // where the listen thread was, in its present pass, when
    wokenAt: Option<ListenPC>,      //   doListen last wrote `enabled`, and `wakeup`
    target: Target,                 // m_portnumber and m_ip_version, as doListen last wrote them
    openedAs: Target)               // what the listener was last opened with

  // ---- lock operations ----------------------------------------------------

  datatype Mutex = D | C
  datatype Op = Local | Take(m: Mutex) | Give(m: Mutex)

  function Owner(s: State, m: Mutex): Option<Thread> {
    if m.D? then s.d else s.c
  }

  predicate CanDo(s: State, op: Op) {
    op.Take? ==> Owner(s, op.m).None?
  }

  function NewOwner(s: State, who: Thread, op: Op, m: Mutex): Option<Thread> {
    if op == Take(m) then Some(who) else if op == Give(m) then None else Owner(s, m)
  }

  function TellOp(t: Tell, told: bool): Op {
    match t
    case Want => Take(C)
    case Hold => if told then Give(C) else Local
    case Running => Local
    case Rewant => Take(C)
    case Held => Give(C)
  }

  function TellNext(t: Tell, told: bool): Tell {
    match t
    case Want => Hold
    case Hold => if told then Running else Held
    case Running => Rewant
    case Rewant => Held
    case Held => Held
  }

  // ---- the listen thread --------------------------------------------------

  /** The predicate the paused listen thread waits for. */
  predicate ListenWakes(s: State) {
    s.peers != 0 || s.f.available || s.quit || s.f.changing || s.f.wakeup
  }

  function ListenOp(s: State, x: Choice): Op {
    match s.l
    case LOpenWant => Take(D)
    case LOpenFailed(t) => TellOp(t, x.told)
    case LOpenOk(t) => TellOp(t, x.told)
    case LOpenDone => Give(D)
    case LCloseWant => Take(D)
    case LClosedWant => Take(C)
    case LClosed => if x.told then Give(D) else Local
    case LClosedCallback => if s.relock then Local else Give(C)
    case LRelock => Take(D)
    case LClosedEnd => Give(C)
    case LClosedEnd2 => Give(D)
    case LPauseWant => Take(D)
    case LPause => Give(D)
    case LMainWant => Take(D)
    case LMain(work) => if x.ok && work > 0 then Local else Give(D)
    case LMainTell(_, t) => TellOp(t, x.told)
    case _ => Local
  }

  function ListenNext(s: State, x: Choice): ListenPC {
    match s.l
    case LUnstarted => LUnstarted
    case LTop => if s.listenRun then LTest else LExited
    case LTest => if s.f.enabled && !s.f.available then LOpenWant else LTestChanging
    case LTestChanging => if s.f.changing then LOpenWant else LTestStop
    case LTestStop => if !s.f.enabled && s.f.available then LCloseWant else LClear
    case LOpenWant => LOpening
    case LOpening => if x.ok then LOpenOk(Want) else LOpenFailed(Want)
    case LOpenFailed(t) => if t.Held? then LOpenDone else LOpenFailed(TellNext(t, x.told))
    case LOpenOk(t) => if t.Held? then LOpenDone else LOpenOk(TellNext(t, x.told))
    case LOpenDone => LClear
    case LCloseWant => LClosing
    case LClosing => LClosedWant
    case LClosedWant => LClosed
    case LClosed => if x.told then LClosedCallback else LClosedEnd
    case LClosedCallback => if s.relock then LRelock else LClear
    case LRelock => LClosedEnd
    case LClosedEnd => LClosedEnd2
    case LClosedEnd2 => LClear
    case LClear => LPauseWant
    case LPauseWant => LPause
    case LPause => if ListenWakes(s) then LCheckQuit else LBlocked
    case LBlocked => LPauseWant
    case LCheckQuit => if s.quit then LExited else LMainWant
    case LMainWant => LMain(x.n)
    case LMain(work) => if x.ok && work > 0 then LMainTell(work - 1, Want) else LTop
    case LMainTell(work, t) => if t.Held? then LMain(work) else LMainTell(work, TellNext(t, x.told))
    case LExited => LExited
  }

  function ListenFlags(s: State, x: Choice): Flags {
    match s.l
    case LOpening => if x.ok then s.f.(available := true, listening := true) else s.f.(listening := false)
    case LOpenFailed(t) => if t.Held? then s.f.(available := false, enabled := false) else s.f
    case LOpenDone => s.f.(changing := false)
    case LClosing => s.f.(available := false, listening := false)
    case LClear => s.f.(wakeup := false)
    case _ => s.f
  }

  /** A section may accept one peer and erase one. */
  function ListenPeers(s: State, x: Choice): nat {
    if s.l.LMain? && !(x.ok && s.l.work > 0) then
      var more := s.peers + if x.gain then 1 else 0;
      if x.lose && more > 0 then more - 1 else more
    else s.peers
  }

  /** A section tells the user of an accept, of each peer, and of one erased. */
  predicate ListenCan(s: State, x: Choice) {
    && !s.l.LUnstarted? && !s.l.LExited?
    && CanDo(s, ListenOp(s, x))
    && (s.l.LMainWant? ==> x.n <= s.peers + 3)
  }

  function ListenStep(s: State, x: Choice): State {
    s.(d := NewOwner(s, Listen, ListenOp(s, x), D),
       c := NewOwner(s, Listen, ListenOp(s, x), C),
       l := ListenNext(s, x),
       f := ListenFlags(s, x),
       peers := ListenPeers(s, x),
       enabledAt := if s.l.LTest? then None else s.enabledAt,
       wokenAt := if s.l.LTest? then None else s.wokenAt,
       openedAs := if s.l.LOpening? && x.ok then s.target else s.openedAs)
  }

  // ---- the connect thread -------------------------------------------------

  function ConnectOp(s: State): Op {
    match s.k
    case KReadWant => Take(D)
    case KRead => Give(D)
    case KPauseWant => Take(D)
    case KPause => Give(D)
    case KFrontWant(_, _) => Take(D)
    case KFront(_, _) => Give(D)
    case KLostWant(_, _) => Take(C)
    case KLost(_, _) => Give(C)
    case KWonWant(_, _) => Take(D)
    case KWon(_, _) => Give(D)
    case KTellWant(_, _) => Take(C)
    case KTell(_, _) => Give(C)
    case KPopWant => Take(D)
    case KPop => Give(D)
    case _ => Local
  }

  predicate ConnectWakes(s: State) { s.queue != 0 || s.quit }

  function ConnectNext(s: State, x: Choice): ConnectPC {
    match s.k
    case KUnstarted => KUnstarted
    case KTop => if s.connectRun then KReadWant else KExited
    case KReadWant => KRead
    case KRead => if s.queue == 0 then KPauseWant else KCycle(0, s.queue)
    case KPauseWant => KPause
    case KPause => if ConnectWakes(s) then KTop else KBlocked
    case KBlocked => KPauseWant
    case KCycle(i, q) => if i < q then KFrontWant(i, q) else KPopWant
    case KFrontWant(i, q) => KFront(i, q)
    case KFront(i, q) => KTry(i, q, x.n)
    case KTry(i, q, left) =>
      if x.ok then KWonWant(i, q) else if left > 0 && x.told then KTry(i, q, left - 1) else KLostWant(i, q)
    case KLostWant(i, q) => KLost(i, q)
    case KLost(i, q) => KCycle(i + 1, q)
    case KWonWant(i, q) => KWon(i, q)
    case KWon(i, q) => KTellWant(i, q)
    case KTellWant(i, q) => KTell(i, q)
    case KTell(i, q) => KCycle(i + 1, q)
    case KPopWant => KPop
    case KPop => KTop
    case KExited => KExited
  }

  predicate ConnectCan(s: State) {
    !s.k.KUnstarted? && !s.k.KExited? && CanDo(s, ConnectOp(s))
  }

  function ConnectStep(s: State, x: Choice): State {
    s.(d := NewOwner(s, Connect, ConnectOp(s), D),
       c := NewOwner(s, Connect, ConnectOp(s), C),
       k := ConnectNext(s, x),
       peers := if s.k.KWon? then s.peers + 1 else s.peers,
       queue := if s.k.KPop? && s.queue > 0 then s.queue - 1 else s.queue)
  }

  // ---- the send thread ----------------------------------------------------

  function SendOp(s: State, x: Choice): Op {
    match s.s
    case SWant => Take(D)
    case SCount => if s.outbox % 256 == 0 then Give(D) else Local
    case SPauseWant => Take(D)
    case SPause => Give(D)
    case SReWant => Take(D)
    case STell(t) => TellOp(t, x.told)
    case SPop => Give(D)
    case _ => Local
  }

  predicate SendWakes(s: State) { s.outbox != 0 || s.quit }

  function SendNext(s: State, x: Choice): SendPC {
    match s.s
    case SUnstarted => SUnstarted
    case STop => if s.sendRun then SWant else SExited
    case SWant => SCount
    case SCount => if s.outbox % 256 == 0 then SPauseWant else SHandle
    case SPauseWant => SPause
    case SPause => if SendWakes(s) then SReWant else SBlocked
    case SBlocked => SPauseWant
    case SReWant => SHandle
    case SHandle => if s.outbox > 0 && x.ok then STell(Want) else SPop
    case STell(t) => if t.Held? then SPop else STell(TellNext(t, x.told))
    case SPop => STop
    case SExited => SExited
  }

  predicate SendCan(s: State, x: Choice) {
    !s.s.SUnstarted? && !s.s.SExited? && CanDo(s, SendOp(s, x))
  }

  function SendStep(s: State, x: Choice): State {
    s.(d := NewOwner(s, Send, SendOp(s, x), D),
       c := NewOwner(s, Send, SendOp(s, x), C),
       s := SendNext(s, x),
       outbox := if s.s.SPop? && s.outbox > 0 then s.outbox - 1 else s.outbox)
  }

  // ---- users --------------------------------------------------------------

  function UserOp(pc: UserPC, x: Choice): Op {
    match pc
    case UWant(_) => Take(D)
    case UData(op) => if op.DoListen? || (op.SendData? && !x.ok) then Local else Give(D)
    case UListenWake => Give(D)
    case USendWant => Take(C)
    case USendError => Give(C)
    case USendEnd => Give(D)
    case USetWant => Take(C)
    case USet => Give(C)
    case UStartWant => Take(D)
    case UStarting => Give(D)
    case QWant => Take(D)
    case QData => Give(D)
    case _ => Local
  }

  function CallNext(s: State, call: Call): UserPC {
    match call
    case CallData(op) => UWant(op)
    case CallStopListening => if s.listenRun then UStopWake else UIdle
    case CallSetCallback => USetWant
    case CallDestructor => QConnect
  }

  function UserNext(s: State, pc: UserPC, x: Choice): UserPC {
    match pc
    case UIdle => CallNext(s, x.call)
    case UWant(op) => UData(op)
    case UData(op) =>
      if op.DoListen? then UListenChange
      else if op.ConnectTo? then UStart
      else if op.SendData? && !x.ok then USendWant
      else UIdle
    case UListenChange => UListenWake
    case UListenWake => UStart
    case USendWant => USendError
    case USendError => USendEnd
    case USendEnd => UIdle
    case USetWant => USet
    case USet => UIdle
    case UStopWake => UIdle
    case UStart => if s.listenRun then UIdle else UStartWant
    case UStartWant => UStarting
    case UStarting => UIdle
    case QConnect => if s.connectRun then QConnectJoin else QSend
    case QConnectJoin => QSend
    case QSend => if s.sendRun then QSendJoin else QListen
    case QSendJoin => QListen
    case QListen => if s.listenRun then QListenJoin else QWant
    case QListenJoin => QWant
    case QWant => QData
    case QData => QDone
    case QDone => QDone
  }

  function UserFlags(s: State, pc: UserPC, x: Choice): Flags {
    match pc
    case UIdle => if x.call.CallStopListening? && s.listenRun then s.f.(enabled := false) else s.f
    case UData(op) =>
      if op.DoListen? then s.f.(enabled := true)
      else if op.SetListener? then s.f.(listening := false, changing := s.f.changing || s.f.enabled)
      else s.f
    case UListenChange => s.f.(changing := s.f.changing || s.f.available)
    case UListenWake => s.f.(wakeup := true)
    case UStopWake => s.f.(wakeup := true)
    case _ => s.f
  }

  predicate Connects(pc: UserPC) { pc.UData? && pc.op.ConnectTo? }
  predicate Queues(pc: UserPC, x: Choice) { pc.UData? && pc.op.SendData? && x.ok }
  predicate Serialised(call: Call) { call.CallData? && (call.op.DoListen? || call.op.ConnectTo?) }

  /** No call starts once the destructor has; the destructor starts when every
      user is idle; doListen and connectTo do not overlap. */
  ghost predicate UserCan(s: State, u: nat, x: Choice)
    requires u in s.u
  {
    var pc := s.u[u];
    && CanDo(s, UserOp(pc, x))
    && !pc.QDone?
    && (pc.QConnectJoin? ==> s.k.KExited?)
    && (pc.QSendJoin? ==> s.s.SExited?)
    && (pc.QListenJoin? ==> s.l.LExited?)
    && (pc.UIdle? ==>
          && !s.quit
          && (Serialised(x.call) ==> s.starter.None?)
          && (x.call.CallDestructor? ==> forall v :: v in s.u ==> s.u[v].UIdle?))
  }

  function UserStep(s: State, u: nat, x: Choice): State
    requires u in s.u
  {
    var pc := s.u[u];
    s.(d := NewOwner(s, User(u), UserOp(pc, x), D),
       c := NewOwner(s, User(u), UserOp(pc, x), C),
       u := s.u[u := UserNext(s, pc, x)],
       l := if pc.UStarting? then LTop else s.l,
       k := if Connects(pc) && !s.connectRun then KTop else s.k,
       s := if Queues(pc, x) && !s.sendRun then STop else s.s,
       f := UserFlags(s, pc, x),
       quit := s.quit || (pc.UIdle? && x.call.CallDestructor?),
       listenRun := if pc.UStart? then true else if pc.QListen? then false else s.listenRun,
       connectRun := if Connects(pc) then true else if pc.QConnect? then false else s.connectRun,
       sendRun := if Queues(pc, x) then true else if pc.QSend? then false else s.sendRun,
       queue := if Connects(pc) then s.queue + 1 else s.queue,
       outbox := if Queues(pc, x) then s.outbox + 1 else s.outbox,
       starter := if pc.UIdle? && Serialised(x.call) then Some(u)
                  else if (pc.UStart? && s.listenRun) || pc.UStarting? then None
                  else s.starter,
       enabledAt := if pc.UData? && pc.op.DoListen? then Some(s.l) else s.enabledAt,
       wokenAt := if pc.UListenWake? then Some(s.l) else s.wokenAt,
       target := if pc.UData? && pc.op.DoListen? then s.target.(port := x.target.port)
                 else if pc.UListenChange? then s.target.(version := x.target.version)
                 else s.target)
  }

  // ---- runs ---------------------------------------------------------------

  ghost predicate Can(s: State, who: Thread, x: Choice) {
    match who
    case Listen => ListenCan(s, x)
    case Connect => ConnectCan(s)
    case Send => SendCan(s, x)
    case User(u) => u in s.u && UserCan(s, u, x)
  }

  ghost function Step(s: State, who: Thread, x: Choice): State
    requires Can(s, who, x)
  {
    match who
    case Listen => ListenStep(s, x)
    case Connect => ConnectStep(s, x)
    case Send => SendStep(s, x)
    case User(u) => UserStep(s, u, x)
  }

  ghost predicate Init(s: State) {
    && s.d.None? && s.c.None? && s.l.LUnstarted? && s.k.KUnstarted? && s.s.SUnstarted?
    && (forall u :: u in s.u ==> s.u[u].UIdle?)
    && s.f == Flags(false, false, false, false, false)
    && !s.quit && !s.listenRun && !s.connectRun && !s.sendRun
    && s.peers == 0 && s.queue == 0 && s.outbox == 0 && s.starter.None?
    && s.enabledAt.None? && s.wokenAt.None?
  }

  datatype Move = Move(who: Thread, x: Choice)

  ghost predicate ValidRun(s: State, run: seq<Move>)
    decreases |run|
  {
    run == [] || (Can(s, run[0].who, run[0].x) && ValidRun(Step(s, run[0].who, run[0].x), run[1..]))
  }

  ghost function After(s: State, run: seq<Move>): State
    requires ValidRun(s, run)
    decreases |run|
  {
    if run == [] then s else After(Step(s, run[0].who, run[0].x), run[1..])
  }
}

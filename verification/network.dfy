/** The routing and bookkeeping state machine of the simulation (network.py), with the
    discrete-event scheduler taken out: the current time, every service sample and the
    index drawn by the weighted routing choice are parameters of pure step functions. */
module Network {
  import opened Common
  import opened Stats
  import opened Consultants
  import PriorityPick

  const NORMAL: string := "normal"
  const MEDIUM: string := "medium"
  const COMPLICATED: string := "complicated"

  /** The department names the router compares against. */
  const PS_NAME: string := "ps"
  const FIFO_NAME: string := "fifo"
  const LIFOPR_NAME: string := "lifopr"

  datatype Client = Client(
    id: int,
    issueType: string,
    arrivalTime: real,
    currentDepartment: Option<string>,
    priority: int,
    issueHistory: seq<string>,
    lastWait: real,
    waitTimes: seq<real>)

  /** `Client(client_id, issue_type, arrival_time)` with the default priority 0. */
  function NewClient(id: int, issueType: string, arrivalTime: real): (c: Client)
    ensures c.id == id && c.issueType == issueType && c.arrivalTime == arrivalTime
    ensures c.priority == 0 && c.currentDepartment == None
    ensures c.issueHistory == [] && c.waitTimes == [] && c.lastWait == arrivalTime
  {
    Client(id, issueType, arrivalTime, None, 0, [], arrivalTime, [])
  }

  datatype Discipline = ProcessorSharing | FirstInFirstOut | PriorityLifo

  /** A department: its waiting list (the Store's items), the PS active set, its
      consultants and its statistics. */
  datatype Department = Department(
    name: string,
    discipline: Discipline,
    queue: seq<Client>,
    activeClients: seq<Client>,
    consultants: seq<Consultant>,
    results: Results)

  /** The clients a department currently holds: the active set for PS, the queue otherwise. */
  function Holding(d: Department): seq<Client>
  {
    if d.discipline == ProcessorSharing then d.activeClients else d.queue
  }

  /** Every client a department holds records that department as its current one. */
  ghost predicate Tagged(d: Department)
  {
    forall i :: 0 <= i < |Holding(d)| ==> Holding(d)[i].currentDepartment == Some(d.name)
  }

  /** A department built by `DepartmentX(env, name)` and `_create_consultants(n)`. */
  function NewDepartment(name: string, discipline: Discipline, consultantCount: nat): (d: Department)
    ensures d.name == name && d.discipline == discipline
    ensures Holding(d) == [] && Tagged(d) && Paired(d.results)
    ensures |d.consultants| == consultantCount && FirstAvailable(d.consultants) == (if consultantCount == 0 then None else Some(0))
  {
    Department(name, discipline, [], [], CreateConsultants(name, consultantCount), NewResults())
  }

  datatype Admitted = Admitted(department: Department, client: Client)

  /** `_add_client`: the client is stamped with the department's name and put at the
      tail of the department's holding. The base class (FIFO, LIFOPR) also appends one
      queue-size sample, the new queue length at time `now`; the PS override samples
      nothing. */
  function AddClient(d: Department, c: Client, now: real): (a: Admitted)
    ensures a.client == c.(currentDepartment := Some(d.name))
    ensures Holding(a.department) == Holding(d) + [a.client]
    ensures a.department.name == d.name && a.department.discipline == d.discipline
    ensures a.department.consultants == d.consultants
    ensures d.discipline == ProcessorSharing ==> a.department.results == d.results && a.department.queue == d.queue
    ensures d.discipline != ProcessorSharing ==>
      && a.department.activeClients == d.activeClients
      && a.department.results.queueSize == d.results.queueSize + [|d.queue| + 1]
      && a.department.results.queueChangeTime == d.results.queueChangeTime + [now]
      && a.department.results.processedClients == d.results.processedClients
      && a.department.results.processedClientsTime == d.results.processedClientsTime
    ensures Tagged(d) ==> Tagged(a.department)
    ensures Paired(d.results) ==> Paired(a.department.results)
  {
    var c' := c.(currentDepartment := Some(d.name));
    if d.discipline == ProcessorSharing then
      Admitted(d.(activeClients := d.activeClients + [c']), c')
    else
      var q := d.queue + [c'];
      Admitted(d.(queue := q, results := RegisterQueueChange(d.results, |q|, now)), c')
  }

  datatype Action =
    | ConvertToComplicated
    | ConvertToMedium
    | ConvertToNormal
    | StayComplicated
    | StayMedium
    | QuitSystem

  /** The outcome list `_route_client` draws from, chosen by the client's current
      department name and issue type: which (department, issue) pairs route at all,
      which actions each of them can produce, and the exact list in the order the
      routing weights are paired with. */
  function Outcomes(department: Option<string>, issue: string): (r: seq<Action>)
    ensures r == [] <==>
      || department !in {Some(PS_NAME), Some(FIFO_NAME), Some(LIFOPR_NAME)}
      || (department == Some(PS_NAME) && issue !in {NORMAL, MEDIUM, COMPLICATED})
    ensures StayMedium in r <==> department == Some(PS_NAME) && issue == MEDIUM
    ensures StayComplicated in r <==> department == Some(PS_NAME) && issue == COMPLICATED
    ensures ConvertToNormal in r <==> department == Some(FIFO_NAME)
    ensures QuitSystem in r <==>
      || (department == Some(PS_NAME) && issue == NORMAL)
      || department == Some(FIFO_NAME)
      || department == Some(LIFOPR_NAME)
    ensures department == Some(PS_NAME) && issue == NORMAL ==> r == [ConvertToComplicated, ConvertToMedium, QuitSystem]
    ensures department == Some(PS_NAME) && issue == MEDIUM ==> r == [StayMedium, ConvertToComplicated]
    ensures department == Some(PS_NAME) && issue == COMPLICATED ==> r == [StayComplicated, ConvertToMedium]
    ensures department == Some(FIFO_NAME) ==> r == [ConvertToComplicated, ConvertToNormal, QuitSystem]
    ensures department == Some(LIFOPR_NAME) ==> r == [ConvertToMedium, QuitSystem]
  {
    if department == Some(PS_NAME) then
      if issue == NORMAL then [ConvertToComplicated, ConvertToMedium, QuitSystem]
      else if issue == MEDIUM then [StayMedium, ConvertToComplicated]
      else if issue == COMPLICATED then [StayComplicated, ConvertToMedium]
      else []
    else if department == Some(FIFO_NAME) then [ConvertToComplicated, ConvertToNormal, QuitSystem]
    else if department == Some(LIFOPR_NAME) then [ConvertToMedium, QuitSystem]
    else []
  }

  datatype Route = Route(ps: Department, fifo: Department, lifopr: Department)

  /** The three departments carry the disciplines the router wires them as. */
  predicate Wired(n: Route)
  {
    && n.ps.discipline == ProcessorSharing
    && n.fifo.discipline == FirstInFirstOut
    && n.lifopr.discipline == PriorityLifo
  }

  /** Every department holds only clients tagged with its name, and every statistics
      series is paired. */
  ghost predicate Bookkept(n: Route)
  {
    && Tagged(n.ps) && Tagged(n.fifo) && Tagged(n.lifopr)
    && Paired(n.ps.results) && Paired(n.fifo.results) && Paired(n.lifopr.results)
  }

  datatype Step = Step(route: Route, client: Client)

  function AdmitToPs(n: Route, c: Client, now: real): Step
  {
    var a := AddClient(n.ps, c, now);
    Step(n.(ps := a.department), a.client)
  }

  function AdmitToFifo(n: Route, c: Client, now: real): Step
  {
    var a := AddClient(n.fifo, c, now);
    Step(n.(fifo := a.department), a.client)
  }

  function AdmitToLifopr(n: Route, c: Client, now: real): Step
  {
    var a := AddClient(n.lifopr, c, now);
    Step(n.(lifopr := a.department), a.client)
  }

  /** Where an action sends the client: `Some(0)` PS, `Some(1)` FIFO, `Some(2)` LIFOPR. */
  function Destination(action: Action): Option<nat>
  {
    match action
    case ConvertToComplicated => Some(2)
    case StayComplicated => Some(2)
    case ConvertToMedium => Some(1)
    case StayMedium => Some(1)
    case ConvertToNormal => Some(0)
    case QuitSystem => None
  }

  function DepartmentAt(n: Route, k: nat): Department
    requires k < 3
  {
    if k == 0 then n.ps else if k == 1 then n.fifo else n.lifopr
  }

  /** The issue type a conversion switches to. */
  function ConvertsTo(action: Action): Option<string>
  {
    match action
    case ConvertToComplicated => Some(COMPLICATED)
    case ConvertToMedium => Some(MEDIUM)
    case ConvertToNormal => Some(NORMAL)
    case _ => None
  }

  /** `_process_action`. */
  function ProcessAction(n: Route, c: Client, action: Action, now: real): (s: Step)
    ensures ConvertsTo(action).Some? ==>
      && s.client.issueType == ConvertsTo(action).value
      && s.client.issueHistory == c.issueHistory + [ConvertsTo(action).value]
      && s.client.priority == c.priority + 5
    ensures action == StayMedium ==> s.client.issueType == MEDIUM
    ensures ConvertsTo(action).None? ==>
      && s.client.issueHistory == c.issueHistory && s.client.priority == c.priority
      && (action != StayMedium ==> s.client.issueType == c.issueType)
    ensures s.client.lastWait == c.lastWait && s.client.waitTimes == c.waitTimes && s.client.id == c.id
    ensures Destination(action).None? ==> s == Step(n, c)
    ensures Destination(action).Some? ==>
      var k := Destination(action).value;
      && s.client.currentDepartment == Some(DepartmentAt(n, k).name)
      && Holding(DepartmentAt(s.route, k)) == Holding(DepartmentAt(n, k)) + [s.client]
      && (forall j :: 0 <= j < 3 && j != k ==> DepartmentAt(s.route, j) == DepartmentAt(n, j))
    ensures Bookkept(n) ==> Bookkept(s.route)
    ensures Wired(n) ==> Wired(s.route)
  {
    match action
    case ConvertToComplicated =>
      AdmitToLifopr(n, c.(issueType := COMPLICATED, issueHistory := c.issueHistory + [COMPLICATED], priority := c.priority + 5), now)
    case ConvertToMedium =>
      AdmitToFifo(n, c.(issueType := MEDIUM, issueHistory := c.issueHistory + [MEDIUM], priority := c.priority + 5), now)
    case ConvertToNormal =>
      AdmitToPs(n, c.(priority := c.priority + 5, issueType := NORMAL, issueHistory := c.issueHistory + [NORMAL]), now)
    case StayComplicated =>
      AdmitToLifopr(n, c, now)
    case StayMedium =>
      AdmitToFifo(n, c.(issueType := MEDIUM), now)
    case QuitSystem =>
      Step(n, c)
  }

  /** The starting priority `_first_arrival` assigns to each issue type; any other type
      keeps the constructor's default 0. */
  function InitialPriority(issue: string): int
  {
    if issue == COMPLICATED then 10
    else if issue == MEDIUM then 5
    else if issue == NORMAL then 1
    else 0
  }

  /** `_first_arrival`: the priority is set from the issue type (any other type keeps its
      priority) and the client always enters the PS department. */
  function FirstArrival(n: Route, c: Client, now: real): (s: Step)
    ensures c.issueType in {NORMAL, MEDIUM, COMPLICATED} ==> s.client.priority == InitialPriority(c.issueType)
    ensures c.issueType !in {NORMAL, MEDIUM, COMPLICATED} ==> s.client.priority == c.priority
    ensures s.client == c.(priority := s.client.priority, currentDepartment := Some(n.ps.name))
    ensures Holding(s.route.ps) == Holding(n.ps) + [s.client]
    ensures s.route.fifo == n.fifo && s.route.lifopr == n.lifopr
    ensures Bookkept(n) ==> Bookkept(s.route)
  {
    var p := if c.issueType in {NORMAL, MEDIUM, COMPLICATED} then InitialPriority(c.issueType) else c.priority;
    AdmitToPs(n, c.(priority := p), now)
  }

  /** `client_arrival`: a new client whose history starts with its issue type, handed to
      `_first_arrival`. */
  function ClientArrival(n: Route, id: int, issue: string, now: real): (s: Step)
    ensures s.client.issueHistory == [issue] && s.client.issueType == issue
    ensures s.client.priority == InitialPriority(issue)
    ensures s.client.arrivalTime == now && s.client.lastWait == now && s.client.waitTimes == []
    ensures Holding(s.route.ps) == Holding(n.ps) + [s.client]
  {
    var c := NewClient(id, issue, now);
    FirstArrival(n, c.(issueHistory := c.issueHistory + [issue]), now)
  }

  /** An index `random.choices` can return for this client's outcome list. */
  predicate ValidChoice(c: Client, choice: nat)
  {
    |Outcomes(c.currentDepartment, c.issueType)| == 0 || choice < |Outcomes(c.currentDepartment, c.issueType)|
  }

  /** `_route_client` with the drawn outcome index given: a client whose department and
      issue have no outcome list is left where it is. */
  function RouteClient(n: Route, c: Client, choice: nat, now: real): (s: Step)
    requires ValidChoice(c, choice)
    ensures Outcomes(c.currentDepartment, c.issueType) == [] ==> s == Step(n, c)
    ensures Outcomes(c.currentDepartment, c.issueType) != [] ==>
      s == ProcessAction(n, c, Outcomes(c.currentDepartment, c.issueType)[choice], now)
  {
    var outcomes := Outcomes(c.currentDepartment, c.issueType);
    if |outcomes| == 0 then Step(n, c) else ProcessAction(n, c, outcomes[choice], now)
  }

  /** The client invariant of a run: the priority is the starting priority of the first
      issue type plus 5 per later history entry, and the last history entry is the
      current issue type. */
  ghost predicate Consistent(c: Client)
  {
    && |c.issueHistory| >= 1
    && c.priority == InitialPriority(c.issueHistory[0]) + 5 * (|c.issueHistory| - 1)
    && Last(c.issueHistory) == c.issueType
  }

  lemma ArrivalIsConsistent(n: Route, id: int, issue: string, now: real)
    ensures Consistent(ClientArrival(n, id, issue, now).client)
  {
  }

  /** One routing step keeps the client invariant, and the priority either stays or grows
      by exactly 5 together with one new history entry. */
  lemma RouteClientKeepsConsistent(n: Route, c: Client, choice: nat, now: real)
    requires ValidChoice(c, choice)
    requires Consistent(c)
    ensures Consistent(RouteClient(n, c, choice, now).client)
    ensures var c' := RouteClient(n, c, choice, now).client;
      || (c'.priority == c.priority && c'.issueHistory == c.issueHistory)
      || (c'.priority == c.priority + 5 && |c'.issueHistory| == |c.issueHistory| + 1)
  {
    var outcomes := Outcomes(c.currentDepartment, c.issueType);
    if |outcomes| > 0 {
      var action := outcomes[choice];
      assert action in outcomes;
      var c' := ProcessAction(n, c, action, now).client;
      if ConvertsTo(action).Some? {
        assert c'.issueHistory[0] == c.issueHistory[0];
      }
    }
  }

  datatype Call = Call(consultant: Consultant, client: Client)

  /** First half of `_handle_call`, at the start time: the consultant turns busy and
      counts the call, and the client logs how long it waited since `last_wait`. */
  function BeginCall(con: Consultant, c: Client, now: real): (r: Call)
    ensures r.consultant == con.(busy := true, handledCalls := con.handledCalls + 1)
    ensures r.client == c.(waitTimes := c.waitTimes + [now - c.lastWait])
  {
    Call(con.(busy := true, handledCalls := con.handledCalls + 1),
         c.(waitTimes := c.waitTimes + [now - c.lastWait]))
  }

  /** Second half of `_handle_call`, at the completion time `now`: the service time is
      added to the call total and remembered for the next break, the client's wait clock
      restarts, and the consultant is free again at once (the break runs as a separate
      process and does not keep the consultant busy). */
  function EndCall(con: Consultant, c: Client, service: real, now: real): (r: Call)
    ensures r.consultant == con.(busy := false, timeOnCalls := con.timeOnCalls + service, timeOnPreviousCall := service)
    ensures r.client == c.(lastWait := now)
  {
    Call(con.(timeOnCalls := con.timeOnCalls + service, timeOnPreviousCall := service, busy := false),
         c.(lastWait := now))
  }

  /** `_handle_call` from start to completion, service time `service` starting at `start`:
      the counters a whole call moves, and that it leaves routing state alone. */
  function HandleCall(con: Consultant, c: Client, start: real, service: real): (r: Call)
    ensures r.consultant.handledCalls == con.handledCalls + 1
    ensures r.consultant.timeOnCalls == con.timeOnCalls + service
    ensures r.consultant.timeOnPreviousCall == service
    ensures !r.consultant.busy
    ensures r.consultant.timeOnBreaks == con.timeOnBreaks && r.consultant.breakDuration == con.breakDuration
    ensures r.client.waitTimes == c.waitTimes + [start - c.lastWait]
    ensures r.client.lastWait == start + service
    ensures r.client.priority == c.priority && r.client.issueType == c.issueType
    ensures r.client.issueHistory == c.issueHistory && r.client.currentDepartment == c.currentDepartment
  {
    var begun := BeginCall(con, c, start);
    EndCall(begun.consultant, begun.client, service, start + service)
  }

  /** While a call is in progress its consultant is busy, so the roster scan can never
      hand that consultant to a second client. */
  lemma BusyConsultantNotChosen(roster: seq<Consultant>, k: nat, c: Client, now: real)
    requires k < |roster|
    ensures FirstAvailable(roster[k := BeginCall(roster[k], c, now).consultant]) != Some(k)
  {
  }

  /** A department with its consultant roster and statistics updated after a served
      client, and the served client ready to be routed. */
  datatype Served = Served(department: Department, client: Client)

  /** What `_assign_consultant` (FIFO) and the LIFOPR loop do once a consultant `k` has
      served client `c` from `start` for `service`: the consultant's counters move and its
      break starts, one processed-client sample and one queue-size sample (the current
      queue length) are recorded at the completion time. */
  function CompleteService(d: Department, k: nat, c: Client, start: real, service: real): (s: Served)
    requires k < |d.consultants|
    ensures var done := start + service;
      && |s.department.consultants| == |d.consultants|
      && s.department.consultants[k] == StartBreak(HandleCall(d.consultants[k], c, start, service).consultant)
      && (forall j :: 0 <= j < |d.consultants| && j != k ==> s.department.consultants[j] == d.consultants[j])
      && s.client == HandleCall(d.consultants[k], c, start, service).client
      && s.department.results.processedClients == d.results.processedClients + [|d.results.processedClients| + 1]
      && s.department.results.processedClientsTime == d.results.processedClientsTime + [done]
      && s.department.results.queueSize == d.results.queueSize + [|d.queue|]
      && s.department.results.queueChangeTime == d.results.queueChangeTime + [done]
      && s.department.queue == d.queue && s.department.activeClients == d.activeClients
      && s.department.name == d.name && s.department.discipline == d.discipline
    ensures Paired(d.results) ==> Paired(s.department.results)
    ensures Tagged(d) ==> Tagged(s.department)
  {
    var call := HandleCall(d.consultants[k], c, start, service);
    var done := start + service;
    var results := RegisterQueueChange(RegisterProcessed(d.results, done), |d.queue|, done);
    var d' := d.(consultants := d.consultants[k := StartBreak(call.consultant)], results := results);
    assert Holding(d') == Holding(d);
    Served(d', call.client)
  }

  datatype Taken = Taken(client: Client, department: Department)

  /** `self.queue.get()` of the FIFO loop: the head of the queue, in arrival order. */
  function FifoTake(d: Department): (t: Taken)
    requires |d.queue| > 0
    ensures [t.client] + t.department.queue == d.queue
    ensures t.department == d.(queue := t.department.queue)
  {
    assert d.queue == [d.queue[0]] + d.queue[1..];
    Taken(d.queue[0], d.(queue := d.queue[1..]))
  }

  function PriorityOf(c: Client): int
  {
    c.priority
  }

  /** The LIFOPR pick: the queue is sorted by priority, highest first, and the last client
      is popped. The popped client has the LOWEST priority of all waiting clients and is
      the last of them in queue order; the queue left behind is the rest, sorted, and
      clients of equal priority stay in their queue order (the sort is stable). */
  function LifoprTake(d: Department): (t: Taken)
    requires |d.queue| > 0
    ensures forall i :: 0 <= i < |d.queue| ==> t.client.priority <= d.queue[i].priority
    ensures t.client == d.queue[PriorityPick.LastMinIndex(d.queue, PriorityOf)]
    ensures multiset(t.department.queue) + multiset{t.client} == multiset(d.queue)
    ensures PriorityPick.SortedDesc(t.department.queue, PriorityOf)
    ensures PriorityPick.SameOrderPerKey(t.department.queue + [t.client], d.queue, PriorityOf)
    ensures t.department == d.(queue := t.department.queue)
  {
    PriorityPick.PickNextLowestPriority(d.queue, PriorityOf);
    var p := PriorityPick.PickNext(d.queue, PriorityOf);
    Taken(p.chosen, d.(queue := p.remaining))
  }

  /** Taking a client out of a queue department (either rule) keeps the department
      tagged, and the client taken out still names it. */
  lemma TakeKeepsTagged(d: Department)
    requires |d.queue| > 0 && d.discipline != ProcessorSharing && Tagged(d)
    ensures Tagged(FifoTake(d).department) && FifoTake(d).client.currentDepartment == Some(d.name)
    ensures Tagged(LifoprTake(d).department) && LifoprTake(d).client.currentDepartment == Some(d.name)
  {
    FifoTakeKeepsTagged(d);
    LifoprTakeKeepsTagged(d);
  }

  lemma FifoTakeKeepsTagged(d: Department)
    requires |d.queue| > 0 && d.discipline != ProcessorSharing && Tagged(d)
    ensures Tagged(FifoTake(d).department) && FifoTake(d).client.currentDepartment == Some(d.name)
  {
    assert Holding(d) == d.queue;
    assert Holding(FifoTake(d).department) == d.queue[1..];
  }

  lemma LifoprTakeKeepsTagged(d: Department)
    requires |d.queue| > 0 && d.discipline != ProcessorSharing && Tagged(d)
    ensures Tagged(LifoprTake(d).department) && LifoprTake(d).client.currentDepartment == Some(d.name)
  {
    assert Holding(d) == d.queue;
    var t := LifoprTake(d);
    assert Holding(t.department) == t.department.queue;
    forall i | 0 <= i < |t.department.queue|
      ensures t.department.queue[i].currentDepartment == Some(d.name)
    {
      var x := t.department.queue[i];
      assert x in multiset(t.department.queue);
      assert x in multiset(d.queue);
      var j :| 0 <= j < |d.queue| && d.queue[j] == x;
    }
  }

  /** One event in the life of a client: a service by some consultant, or a routing
      decision with the drawn outcome index. */
  datatype Event = Service(start: real, service: real) | Reroute(choice: nat, now: real)

  /** The client and the network after a sequence of events; None when a drawn index is
      outside the outcome list it was drawn for. */
  function Journey(n: Route, c: Client, events: seq<Event>): Option<Step>
    decreases |events|
  {
    if |events| == 0 then Some(Step(n, c))
    else match events[0]
      case Service(start, service) =>
        var served := HandleCall(Consultant(0, "", false, 0, 0.0, 0.0, 0.0, 0.0), c, start, service).client;
        Journey(n, served, events[1..])
      case Reroute(choice, now) =>
        if !ValidChoice(c, choice) then None
        else
          var s := RouteClient(n, c, choice, now);
          Journey(s.route, s.client, events[1..])
  }

  /** The run invariant: from `client_arrival` on, through any services and routing
      steps, priority equals the starting priority plus 5 per conversion, the last
      history entry is the current issue type, and the priority never decreased. */
  lemma {:induction false} JourneyKeepsConsistent(n: Route, c: Client, events: seq<Event>)
    requires Consistent(c)
    ensures Journey(n, c, events).Some? ==>
      Consistent(Journey(n, c, events).value.client) && Journey(n, c, events).value.client.priority >= c.priority
    decreases |events|
  {
    if |events| > 0 {
      match events[0]
      case Service(start, service) =>
        var served := HandleCall(Consultant(0, "", false, 0, 0.0, 0.0, 0.0, 0.0), c, start, service).client;
        JourneyKeepsConsistent(n, served, events[1..]);
      case Reroute(choice, now) =>
        if ValidChoice(c, choice) {
          var s := RouteClient(n, c, choice, now);
          RouteClientKeepsConsistent(n, c, choice, now);
          JourneyKeepsConsistent(s.route, s.client, events[1..]);
        }
    }
  }

  lemma RunInvariant(n: Route, id: int, issue: string, now: real, events: seq<Event>)
    ensures var a := ClientArrival(n, id, issue, now);
      Journey(a.route, a.client, events).Some? ==>
        var c := Journey(a.route, a.client, events).value.client;
        && |c.issueHistory| >= 1
        && c.priority == InitialPriority(c.issueHistory[0]) + 5 * (|c.issueHistory| - 1)
        && c.issueHistory[0] == issue
        && Last(c.issueHistory) == c.issueType
        && c.priority >= InitialPriority(issue)
  {
    var a := ClientArrival(n, id, issue, now);
    ArrivalIsConsistent(n, id, issue, now);
    JourneyKeepsConsistent(a.route, a.client, events);
    HistoryHeadFixed(a.route, a.client, events);
  }

  /** Routing only ever appends to the history, so its first entry is fixed. */
  lemma {:induction false} HistoryHeadFixed(n: Route, c: Client, events: seq<Event>)
    requires |c.issueHistory| >= 1
    ensures Journey(n, c, events).Some? ==>
      var c' := Journey(n, c, events).value.client;
      |c'.issueHistory| >= 1 && c'.issueHistory[0] == c.issueHistory[0]
    decreases |events|
  {
    if |events| > 0 {
      match events[0]
      case Service(start, service) =>
        var served := HandleCall(Consultant(0, "", false, 0, 0.0, 0.0, 0.0, 0.0), c, start, service).client;
        HistoryHeadFixed(n, served, events[1..]);
      case Reroute(choice, now) =>
        if ValidChoice(c, choice) {
          var s := RouteClient(n, c, choice, now);
          HistoryHeadFixed(s.route, s.client, events[1..]);
        }
    }
  }

  /** Service still owed after a slice: the code's `remaining_service_time` after the
      granted time is subtracted. */
  function Remaining(sample: real, slice: real): real
  {
    sample - MinReal(slice, sample)
  }

  /** The time a PS round grants each client of the snapshot, in order. */
  function Allocations(samples: seq<real>, slice: real): (a: seq<real>)
    ensures |a| == |samples|
  {
    if |samples| == 0 then []
    else Allocations(samples[..|samples| - 1], slice) + [MinReal(slice, Last(samples))]
  }

  /** Reference for the clients a PS round leaves in the active set: the snapshot's
      clients whose remaining time stays positive, in snapshot order. */
  function Kept(active: seq<Client>, samples: seq<real>, slice: real): seq<Client>
    requires |samples| == |active|
  {
    if |active| == 0 then []
    else
      Kept(active[..|active| - 1], samples[..|samples| - 1], slice)
        + (if Remaining(Last(samples), slice) > 0.0 then [Last(active)] else [])
  }

  /** Reference for the clients a PS round finishes, in order, each with `last_wait`
      set to the time its slice ended. */
  function Finished(active: seq<Client>, samples: seq<real>, slice: real, now: real): seq<Client>
    requires |samples| == |active|
  {
    if |active| == 0 then []
    else
      Finished(active[..|active| - 1], samples[..|samples| - 1], slice, now)
        + (if Remaining(Last(samples), slice) > 0.0 then []
           else [Last(active).(lastWait := now + SumReals(Allocations(samples, slice)))])
  }

  /** Reference for the statistics after a PS round: each finished client records one
      processed sample and one queue-size sample (`size`) at the time its slice ended. */
  function RecordRound(r: Results, samples: seq<real>, slice: real, now: real, size: int): Results
  {
    if |samples| == 0 then r
    else
      var before := RecordRound(r, samples[..|samples| - 1], slice, now, size);
      var t := now + SumReals(Allocations(samples, slice));
      if Remaining(Last(samples), slice) > 0.0 then before
      else RegisterQueueChange(RegisterProcessed(before, t), size, t)
  }

  datatype PsRoundOutcome = PsRoundOutcome(department: Department, finished: seq<Client>, allocations: seq<real>, clock: real)

  /** One pass of the PS loop over a snapshot of the active set, with `samples[i]` the
      Cox sample drawn for the i-th client of the snapshot: with n clients the slice is
      1/n, each client gets `min(slice, sample)` time units in turn, and a client leaves
      the active set (to be routed) exactly when its remaining time is no longer
      positive. None when there are clients but every consultant is busy: the source
      then keeps polling. The consultant picked is released after each slice, so the
      roster is unchanged by the round. */
  method PsRound(d: Department, samples: seq<real>, now: real) returns (r: Option<PsRoundOutcome>)
    requires |samples| == |d.activeClients|
    ensures |d.activeClients| == 0 ==> r == Some(PsRoundOutcome(d, [], [], now))
    ensures |d.activeClients| > 0 && FirstAvailable(d.consultants).None? ==> r.None?
    ensures |d.activeClients| > 0 && FirstAvailable(d.consultants).Some? ==>
      var slice := 1.0 / (|d.activeClients| as real);
      && r.Some?
      && r.value.department == d.(activeClients := Kept(d.activeClients, samples, slice),
                                  results := RecordRound(d.results, samples, slice, now, |d.queue|))
      && r.value.finished == Finished(d.activeClients, samples, slice, now)
      && r.value.allocations == Allocations(samples, slice)
      && r.value.clock == now + SumReals(r.value.allocations)
  {
    if |d.activeClients| == 0 {
      return Some(PsRoundOutcome(d, [], [], now));
    }
    if FirstAvailable(d.consultants).None? {
      return None;
    }
    var outcome := PsPass(d, samples, 1.0 / (|d.activeClients| as real), now);
    r := Some(outcome);
  }

  /** The loop of a PS round for a given slice length. */
  method PsPass(d: Department, samples: seq<real>, slice: real, now: real) returns (o: PsRoundOutcome)
    requires |samples| == |d.activeClients|
    ensures o.department == d.(activeClients := Kept(d.activeClients, samples, slice),
                               results := RecordRound(d.results, samples, slice, now, |d.queue|))
    ensures o.finished == Finished(d.activeClients, samples, slice, now)
    ensures o.allocations == Allocations(samples, slice)
    ensures o.clock == now + SumReals(o.allocations)
  {
    var active := d.activeClients;
    var n := |active|;
    var kept: seq<Client> := [];
    var finished: seq<Client> := [];
    var allocations: seq<real> := [];
    var clock := now;
    var results := d.results;
    var i := 0;
    while i < n
      invariant 0 <= i <= n
      invariant kept == Kept(active[..i], samples[..i], slice)
      invariant finished == Finished(active[..i], samples[..i], slice, now)
      invariant allocations == Allocations(samples[..i], slice)
      invariant clock == now + SumReals(Allocations(samples[..i], slice))
      invariant results == RecordRound(d.results, samples[..i], slice, now, |d.queue|)
    {
      PassStep(active, samples, slice, now, d.results, |d.queue|, i);
      var granted := MinReal(slice, samples[i]);
      var remaining := samples[i] - granted;
      clock := clock + granted;
      allocations := allocations + [granted];
      if remaining <= 0.0 {
        finished := finished + [active[i].(lastWait := clock)];
        results := RegisterQueueChange(RegisterProcessed(results, clock), |d.queue|, clock);
      } else {
        kept := kept + [active[i]];
      }
      i := i + 1;
    }
    assert active[..n] == active;
    assert samples[..n] == samples;
    o := PsRoundOutcome(d.(activeClients := kept, results := results), finished, allocations, clock);
  }

  /** The references one client further into the snapshot. */
  lemma PassStep(active: seq<Client>, samples: seq<real>, slice: real, now: real, r: Results, size: int, i: nat)
    requires |samples| == |active| && i < |active|
    ensures Allocations(samples[..i + 1], slice) == Allocations(samples[..i], slice) + [MinReal(slice, samples[i])]
    ensures SumReals(Allocations(samples[..i + 1], slice))
      == SumReals(Allocations(samples[..i], slice)) + MinReal(slice, samples[i])
    ensures Kept(active[..i + 1], samples[..i + 1], slice)
      == Kept(active[..i], samples[..i], slice)
         + (if Remaining(samples[i], slice) > 0.0 then [active[i]] else [])
    ensures Finished(active[..i + 1], samples[..i + 1], slice, now)
      == Finished(active[..i], samples[..i], slice, now)
         + (if Remaining(samples[i], slice) > 0.0 then []
            else [active[i].(lastWait := now + SumReals(Allocations(samples[..i + 1], slice)))])
    ensures RecordRound(r, samples[..i + 1], slice, now, size)
      == (var before, t := RecordRound(r, samples[..i], slice, now, size),
                           now + SumReals(Allocations(samples[..i + 1], slice));
          if Remaining(samples[i], slice) > 0.0 then before
          else RegisterQueueChange(RegisterProcessed(before, t), size, t))
  {
    assert samples[..i + 1][..i] == samples[..i];
    assert active[..i + 1][..i] == active[..i];
    assert Last(samples[..i + 1]) == samples[i];
    assert Last(active[..i + 1]) == active[i];
    var a := Allocations(samples[..i + 1], slice);
    assert a[..|a| - 1] == Allocations(samples[..i], slice);
  }

  /** Every client gets at most one slice, and a client whose sample fits in the slice
      gets exactly its sample. */
  lemma AllocationsWithinSlice(samples: seq<real>, slice: real)
    ensures forall i :: 0 <= i < |samples| ==> Allocations(samples, slice)[i] == MinReal(slice, samples[i])
    ensures forall i :: 0 <= i < |samples| ==> Allocations(samples, slice)[i] <= slice
    ensures forall i :: 0 <= i < |samples| && samples[i] <= slice ==> Allocations(samples, slice)[i] == samples[i]
  {
    AllocationsPointwise(samples, slice);
  }

  lemma {:induction false} AllocationsPointwise(samples: seq<real>, slice: real)
    ensures forall i :: 0 <= i < |samples| ==> Allocations(samples, slice)[i] == MinReal(slice, samples[i])
  {
    if |samples| > 0 {
      var front := samples[..|samples| - 1];
      AllocationsPointwise(front, slice);
      var a := Allocations(samples, slice);
      forall i | 0 <= i < |samples|
        ensures a[i] == MinReal(slice, samples[i])
      {
        if i < |samples| - 1 {
          assert a[i] == Allocations(front, slice)[i];
          assert samples[i] == front[i];
        }
      }
    }
  }

  /** n slices add up to at most n times the slice. */
  lemma AllocationsTotal(samples: seq<real>, slice: real)
    ensures SumReals(Allocations(samples, slice)) <= (|samples| as real) * slice
  {
    AllocationsAtMostSlice(samples, slice);
    SumAtMost(Allocations(samples, slice), slice, |samples|);
  }

  lemma AllocationsAtMostSlice(samples: seq<real>, slice: real)
    ensures forall i :: 0 <= i < |Allocations(samples, slice)| ==> Allocations(samples, slice)[i] <= slice
  {
    AllocationsPointwise(samples, slice);
  }

  lemma {:induction false} SumAtMost(a: seq<real>, bound: real, n: nat)
    requires |a| == n
    requires forall i :: 0 <= i < |a| ==> a[i] <= bound
    ensures SumReals(a) <= (n as real) * bound
  {
    if n > 0 {
      var front := a[..n - 1];
      SumAtMost(front, bound, n - 1);
      OneMoreSlice(n, bound);
    }
  }

  lemma OneMoreSlice(n: nat, slice: real)
    requires n > 0
    ensures ((n - 1) as real) * slice + slice == (n as real) * slice
  {
  }

  /** A whole round takes at most one time unit: n slices of 1/n. */
  lemma RoundTakesAtMostOneUnit(samples: seq<real>)
    requires |samples| > 0
    ensures SumReals(Allocations(samples, 1.0 / (|samples| as real))) <= 1.0
  {
    var slice := 1.0 / (|samples| as real);
    SlicesMakeOneUnit(|samples|, slice);
    UnitRoundBound(samples, slice);
  }

  lemma UnitRoundBound(samples: seq<real>, slice: real)
    requires (|samples| as real) * slice == 1.0
    ensures SumReals(Allocations(samples, slice)) <= 1.0
  {
    AllocationsTotal(samples, slice);
  }

  lemma SlicesMakeOneUnit(n: nat, slice: real)
    requires n > 0 && slice == 1.0 / (n as real)
    ensures (n as real) * slice == 1.0
  {
  }

  /** The code's test `remaining <= 0` is the test `sample <= slice`. */
  lemma RemainingTest(sample: real, slice: real)
    ensures Remaining(sample, slice) > 0.0 <==> sample > slice
  {
  }

  /** Every kept client is a snapshot client whose sample exceeded the slice. */
  lemma {:induction false} KeptComesFrom(active: seq<Client>, samples: seq<real>, slice: real, x: Client)
    requires |samples| == |active|
    requires x in Kept(active, samples, slice)
    ensures exists i :: 0 <= i < |active| && active[i] == x && samples[i] > slice
  {
    var m := |active|;
    var front := Kept(active[..m - 1], samples[..m - 1], slice);
    if x in front {
      KeptComesFrom(active[..m - 1], samples[..m - 1], slice, x);
      var i :| 0 <= i < m - 1 && active[..m - 1][i] == x && samples[..m - 1][i] > slice;
      assert active[i] == x && samples[i] > slice;
    } else {
      assert active[m - 1] == x && samples[m - 1] > slice;
    }
  }

  /** Every snapshot client whose sample exceeded the slice is kept. */
  lemma {:induction false} KeptContains(active: seq<Client>, samples: seq<real>, slice: real, i: nat)
    requires |samples| == |active|
    requires i < |active| && samples[i] > slice
    ensures active[i] in Kept(active, samples, slice)
  {
    var m := |active|;
    if i < m - 1 {
      KeptContains(active[..m - 1], samples[..m - 1], slice, i);
    }
  }

  /** With distinct clients in the active set, a client stays after the round iff its
      fresh sample exceeds the slice; the round's clients are partitioned between the
      kept and the finished ones. */
  lemma PsRoundKeepsExactlyTheUnfinished(active: seq<Client>, samples: seq<real>, slice: real, now: real)
    requires |samples| == |active|
    requires forall i, j :: 0 <= i < j < |active| ==> active[i] != active[j]
    ensures forall i :: 0 <= i < |active| ==> (active[i] in Kept(active, samples, slice) <==> samples[i] > slice)
    ensures |Kept(active, samples, slice)| + |Finished(active, samples, slice, now)| == |active|
  {
    forall i | 0 <= i < |active|
      ensures active[i] in Kept(active, samples, slice) <==> samples[i] > slice
    {
      if samples[i] > slice {
        KeptContains(active, samples, slice, i);
      } else if active[i] in Kept(active, samples, slice) {
        KeptComesFrom(active, samples, slice, active[i]);
      }
    }
    PartitionSizes(active, samples, slice, now);
  }

  lemma {:induction false} PartitionSizes(active: seq<Client>, samples: seq<real>, slice: real, now: real)
    requires |samples| == |active|
    ensures |Kept(active, samples, slice)| + |Finished(active, samples, slice, now)| == |active|
  {
    if |active| > 0 {
      PartitionSizes(active[..|active| - 1], samples[..|samples| - 1], slice, now);
    }
  }
}

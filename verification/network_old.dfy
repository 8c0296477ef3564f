/** The earlier draft of the simulation (network_old.py): FIFO entry department, an
    immediate-service ("is") department and the LIFOPR department, no issue history and
    no statistics. Two calls in this draft are calls of generator functions that are
    never driven, so they do nothing: `DepartmentIS._process_clients(client)` and
    `Consultant._take_break()`. */
module NetworkOld {
  import opened Common
  import opened Consultants
  import PriorityPick
  import Network

  const IS_NAME: string := "is"

  datatype Client = Client(
    id: int,
    issueType: string,
    arrivalTime: real,
    currentDepartment: Option<string>,
    priority: int)

  datatype Department = Department(name: string, queue: seq<Client>, consultants: seq<Consultant>)

  datatype Route = Route(fifo: Department, isDepartment: Department, lifopr: Department)

  datatype Admitted = Admitted(department: Department, client: Client)

  /** `_add_client`: stamp the client with the department name and put it at the tail. */
  function AddClient(d: Department, c: Client): (a: Admitted)
    ensures a.client == c.(currentDepartment := Some(d.name))
    ensures a.department == d.(queue := d.queue + [a.client])
  {
    var c' := c.(currentDepartment := Some(d.name));
    Admitted(d.(queue := d.queue + [c']), c')
  }

  datatype Step = Step(route: Route, client: Client)

  /** `_first_arrival`: priority 10/5/1 by issue type (other types keep theirs) and the
      client always enters the FIFO department. */
  function FirstArrival(n: Route, c: Client): (s: Step)
    ensures c.issueType in {Network.NORMAL, Network.MEDIUM, Network.COMPLICATED} ==>
      s.client.priority == Network.InitialPriority(c.issueType)
    ensures c.issueType !in {Network.NORMAL, Network.MEDIUM, Network.COMPLICATED} ==> s.client.priority == c.priority
    ensures s.client == c.(priority := s.client.priority, currentDepartment := Some(n.fifo.name))
    ensures s.route == n.(fifo := n.fifo.(queue := n.fifo.queue + [s.client]))
  {
    var p := if c.issueType in {Network.NORMAL, Network.MEDIUM, Network.COMPLICATED}
             then Network.InitialPriority(c.issueType) else c.priority;
    var a := AddClient(n.fifo, c.(priority := p));
    Step(n.(fifo := a.department), a.client)
  }

  /** `client_arrival` of this draft: a client with priority 0 handed to `_first_arrival`. */
  function ClientArrival(n: Route, id: int, issue: string, now: real): (s: Step)
    ensures s.client == Client(id, issue, now, Some(n.fifo.name), Network.InitialPriority(issue))
    ensures s.route.fifo.queue == n.fifo.queue + [s.client]
  {
    FirstArrival(n, Client(id, issue, now, None, 0))
  }

  /** The outcome list `_route_client` of this draft draws from. It has the shape of the
      later table with FIFO as the entry department and "is" as the secondary one; PS,
      which this draft routes nothing from, and unknown departments give no outcomes. */
  function Outcomes(department: Option<string>, issue: string): (r: seq<Network.Action>)
    ensures department == Some(Network.FIFO_NAME) ==> r == Network.Outcomes(Some(Network.PS_NAME), issue)
    ensures department == Some(IS_NAME) ==> r == Network.Outcomes(Some(Network.FIFO_NAME), issue)
    ensures department == Some(Network.LIFOPR_NAME) ==> r == Network.Outcomes(Some(Network.LIFOPR_NAME), issue)
    ensures department !in {Some(Network.FIFO_NAME), Some(IS_NAME), Some(Network.LIFOPR_NAME)} ==> r == []
  {
    if department == Some(Network.FIFO_NAME) then
      if issue == Network.NORMAL then [Network.ConvertToComplicated, Network.ConvertToMedium, Network.QuitSystem]
      else if issue == Network.MEDIUM then [Network.StayMedium, Network.ConvertToComplicated]
      else if issue == Network.COMPLICATED then [Network.StayComplicated, Network.ConvertToMedium]
      else []
    else if department == Some(IS_NAME) then [Network.ConvertToComplicated, Network.ConvertToNormal, Network.QuitSystem]
    else if department == Some(Network.LIFOPR_NAME) then [Network.ConvertToMedium, Network.QuitSystem]
    else []
  }

  /** The actions whose admission is a call of the IS department's generator method. */
  predicate GoesToIs(action: Network.Action)
  {
    action == Network.ConvertToMedium || action == Network.StayMedium
  }

  /** `_process_action` of this draft. Conversions add 5 to the priority and set the
      issue type; no history is kept. The two actions that would send the client to the
      IS department change the client's fields but admit it nowhere: the network is
      untouched and the client still names its previous department. */
  function ProcessAction(n: Route, c: Client, action: Network.Action): (s: Step)
    ensures s.client.priority == c.priority + (if Network.ConvertsTo(action).Some? then 5 else 0)
    ensures Network.ConvertsTo(action).Some? ==> s.client.issueType == Network.ConvertsTo(action).value
    ensures action == Network.StayMedium ==> s.client.issueType == Network.MEDIUM
    ensures action in {Network.StayComplicated, Network.QuitSystem} ==> s.client.issueType == c.issueType
    ensures GoesToIs(action) ==> s.route == n && s.client.currentDepartment == c.currentDepartment
    ensures action == Network.QuitSystem ==> s == Step(n, c)
    ensures action in {Network.ConvertToComplicated, Network.StayComplicated} ==>
      s.client.currentDepartment == Some(n.lifopr.name)
      && s.route == n.(lifopr := n.lifopr.(queue := n.lifopr.queue + [s.client]))
    ensures action == Network.ConvertToNormal ==>
      s.client.currentDepartment == Some(n.fifo.name)
      && s.route == n.(fifo := n.fifo.(queue := n.fifo.queue + [s.client]))
  {
    match action
    case ConvertToComplicated =>
      var a := AddClient(n.lifopr, c.(issueType := Network.COMPLICATED, priority := c.priority + 5));
      Step(n.(lifopr := a.department), a.client)
    case ConvertToMedium =>
      Step(n, c.(issueType := Network.MEDIUM, priority := c.priority + 5))
    case ConvertToNormal =>
      var a := AddClient(n.fifo, c.(priority := c.priority + 5, issueType := Network.NORMAL));
      Step(n.(fifo := a.department), a.client)
    case StayComplicated =>
      var a := AddClient(n.lifopr, c);
      Step(n.(lifopr := a.department), a.client)
    case StayMedium =>
      Step(n, c.(issueType := Network.MEDIUM))
    case QuitSystem =>
      Step(n, c)
  }

  predicate ValidChoice(c: Client, choice: nat)
  {
    |Outcomes(c.currentDepartment, c.issueType)| == 0 || choice < |Outcomes(c.currentDepartment, c.issueType)|
  }

  /** `_route_client` of this draft with the drawn outcome index given. */
  function RouteClient(n: Route, c: Client, choice: nat): (s: Step)
    requires ValidChoice(c, choice)
    ensures Outcomes(c.currentDepartment, c.issueType) == [] ==> s == Step(n, c)
    ensures Outcomes(c.currentDepartment, c.issueType) != [] ==>
      s == ProcessAction(n, c, Outcomes(c.currentDepartment, c.issueType)[choice])
  {
    var outcomes := Outcomes(c.currentDepartment, c.issueType);
    if |outcomes| == 0 then Step(n, c) else ProcessAction(n, c, outcomes[choice])
  }

  /** Any client whose drawn action is `convert_to_medium` or `stay_medium`, from
      whichever department, never lands anywhere: the network is unchanged and the
      client keeps its current department. */
  lemma IsBoundClientsVanish(n: Route, c: Client, choice: nat)
    requires ValidChoice(c, choice)
    requires Outcomes(c.currentDepartment, c.issueType) != []
    requires GoesToIs(Outcomes(c.currentDepartment, c.issueType)[choice])
    ensures RouteClient(n, c, choice).route == n
    ensures RouteClient(n, c, choice).client.currentDepartment == c.currentDepartment
    ensures RouteClient(n, c, choice).client.issueType == Network.MEDIUM
  {
  }

  /** Routing never lowers a priority and raises it by 5 or not at all. */
  lemma RoutePriority(n: Route, c: Client, choice: nat)
    requires ValidChoice(c, choice)
    ensures RouteClient(n, c, choice).client.priority in {c.priority, c.priority + 5}
  {
  }

  /** `_handle_call` of this draft: the call is counted and timed; the break is a
      generator call that never runs, so the break fields never move; the wait time
      argument is only printed. */
  function HandleCall(con: Consultant, service: real): (con': Consultant)
    ensures con'.handledCalls == con.handledCalls + 1
    ensures con'.timeOnCalls == con.timeOnCalls + service
    ensures con'.timeOnPreviousCall == service
    ensures !con'.busy
    ensures con'.timeOnBreaks == con.timeOnBreaks && con'.breakDuration == con.breakDuration
  {
    con.(busy := false, handledCalls := con.handledCalls + 1,
         timeOnCalls := con.timeOnCalls + service, timeOnPreviousCall := service)
  }

  /** A consultant after serving calls of the given service times, in order. */
  function AfterCalls(con: Consultant, services: seq<real>): Consultant
  {
    if |services| == 0 then con else HandleCall(AfterCalls(con, services[..|services| - 1]), Last(services))
  }

  /** However many calls a consultant of this draft handles, it never accrues break
      time; it counts every call and totals their service times. */
  lemma {:induction false} BreaksNeverAccrue(con: Consultant, services: seq<real>)
    requires Fresh(con)
    ensures AfterCalls(con, services).timeOnBreaks == 0.0
    ensures AfterCalls(con, services).breakDuration == 0.0
    ensures AfterCalls(con, services).handledCalls == |services|
    ensures AfterCalls(con, services).timeOnCalls == SumReals(services)
  {
    if |services| > 0 {
      BreaksNeverAccrue(con, services[..|services| - 1]);
    }
  }

  function PriorityOf(c: Client): int
  {
    c.priority
  }

  datatype Taken = Taken(client: Client, department: Department)

  /** The LIFOPR pick of this draft, the same sort-descending-then-pop rule: the client
      taken has the lowest priority and is the last of that priority in queue order, and
      clients of equal priority stay in their queue order. */
  function LifoprTake(d: Department): (t: Taken)
    requires |d.queue| > 0
    ensures forall i :: 0 <= i < |d.queue| ==> t.client.priority <= d.queue[i].priority
    ensures t.client == d.queue[PriorityPick.LastMinIndex(d.queue, PriorityOf)]
    ensures multiset(t.department.queue) + multiset{t.client} == multiset(d.queue)
    ensures PriorityPick.SortedDesc(t.department.queue, PriorityOf)
    ensures PriorityPick.SameOrderPerKey(t.department.queue + [t.client], d.queue, PriorityOf)
    ensures t.department == d.(queue := t.department.queue)
  {
    PriorityPick.PickNextLowestPriority(d.queue, PriorityOf);
    var p := PriorityPick.PickNext(d.queue, PriorityOf);
    Taken(p.chosen, d.(queue := p.remaining))
  }
}

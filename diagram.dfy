/**
 * What the architecture diagram highlights for a step
 * (components/SimulationDiagram.tsx), with the styling dropped: only the
 * booleans that choose between the class strings are kept.
 */
module Diagram {
  import opened Types

  /** The four packet animations, two on each connector. */
  datatype Packet = ClientToServer | ServerToClient | ServerToDatabase | DatabaseToServer

  /** The three rows of the server's sub-panel. */
  datatype ServerRow = SecurityFilter | Controller | ServiceMapper

  /** The two badges under the client. */
  datatype ClientBadge = Storage | Dom

  const AllEntities: set<Entity> := {Client, Server, Database}
  const AllPackets: set<Packet> := {ClientToServer, ServerToClient, ServerToDatabase, DatabaseToServer}
  const AllServerRows: set<ServerRow> := {SecurityFilter, Controller, ServiceMapper}
  const AllClientBadges: set<ClientBadge> := {Storage, Dom}

  /** The entity a packet leaves from. */
  function Sender(p: Packet): Entity {
    match p
    case ClientToServer => Client
    case ServerToClient => Server
    case ServerToDatabase => Server
    case DatabaseToServer => Database
  }

  /** The entity a packet travels to. */
  function Receiver(p: Packet): Entity {
    match p
    case ClientToServer => Server
    case ServerToClient => Client
    case ServerToDatabase => Database
    case DatabaseToServer => Server
  }

  /** The activity test of getEntityStyle (SimulationDiagram.tsx:14). */
  predicate IsActive(step: Step, e: Entity) {
    step.source == e || step.target == e
  }

  /** The four conditional packet elements (SimulationDiagram.tsx:70-75, 104-109). */
  predicate ShowsPacket(step: Step, p: Packet) {
    match p
    case ClientToServer => step.source == Client && step.target == Server
    case ServerToClient => step.source == Server && step.target == Client
    case ServerToDatabase => step.source == Server && step.target == Database
    case DatabaseToServer => step.source == Database && step.target == Server
  }

  /** isFlowingRight (SimulationDiagram.tsx:30-32). */
  predicate IsFlowingRight(step: Step) {
    (step.source == Client && step.target == Server) ||
    (step.source == Server && step.target == Database)
  }

  /** isFlowingLeft (SimulationDiagram.tsx:34-36). */
  predicate IsFlowingLeft(step: Step) {
    (step.source == Database && step.target == Server) ||
    (step.source == Server && step.target == Client)
  }

  /** isSpringActive, which gates the server sub-panel (SimulationDiagram.tsx:39, 87). */
  predicate IsSpringActive(step: Step) {
    step.source == Server || step.target == Server
  }

  /** The highlight test of each server row (SimulationDiagram.tsx:89-97). */
  predicate RowHighlighted(row: ServerRow, activeComp: string) {
    match row
    case SecurityFilter => activeComp == "filter" || activeComp == "jwt"
    case Controller => activeComp == "controller"
    case ServiceMapper => activeComp == "mapper"
  }

  /** The highlight test of each client badge (SimulationDiagram.tsx:58-61). */
  predicate BadgeHighlighted(badge: ClientBadge, activeComp: string) {
    match badge
    case Storage => activeComp == "storage"
    case Dom => activeComp == "render"
  }

  /**
   * The visual state of the diagram: the undimmed entities, the packets in
   * flight, the two flow flags, whether the server sub-panel is on screen,
   * the highlighted rows of that panel (none when it is hidden) and the
   * highlighted client badges (the badges themselves are always on screen).
   */
  datatype View = View(
    active: set<Entity>,
    packets: set<Packet>,
    flowingRight: bool,
    flowingLeft: bool,
    serverPanel: bool,
    litRows: set<ServerRow>,
    litBadges: set<ClientBadge>)

  /**
   * The diagram for `step`. `prevStep` is accepted, as by the component's
   * props (SimulationDiagram.tsx:5-10), and not consulted.
   */
  function Render(step: Step, prevStep: Option<Step>): (v: View)
    // the highlighted entities are exactly the two ends of the step
    ensures v.active == {step.source, step.target}
    // a packet is shown exactly when it travels the step's own path
    ensures forall p :: p in v.packets <==> Sender(p) == step.source && Receiver(p) == step.target
    // hence at most one packet, and none for a step inside one entity
    ensures forall p, q :: p in v.packets && q in v.packets ==> p == q
    ensures step.source == step.target ==> v.packets == {}
    // the flow flags are the disjunctions of the connector conditions, and exclusive
    ensures v.flowingRight <==> (ClientToServer in v.packets || ServerToDatabase in v.packets)
    ensures v.flowingLeft <==> (ServerToClient in v.packets || DatabaseToServer in v.packets)
    ensures !(v.flowingRight && v.flowingLeft)
    // the server sub-panel is shown exactly when the server takes part
    ensures v.serverPanel <==> Server in v.active
    // at most one server row and at most one client badge is highlighted
    ensures forall r, s :: r in v.litRows && s in v.litRows ==> r == s
    ensures forall a, b :: a in v.litBadges && b in v.litBadges ==> a == b
    ensures v.litRows != {} ==> v.serverPanel
  {
    var active := set e | e in AllEntities && IsActive(step, e);
    var packets := set p | p in AllPackets && ShowsPacket(step, p);
    var litRows := set r | r in AllServerRows && IsSpringActive(step) && RowHighlighted(r, step.activeComponent);
    var litBadges := set b | b in AllClientBadges && BadgeHighlighted(b, step.activeComponent);
    View(active, packets, IsFlowingRight(step), IsFlowingLeft(step), IsSpringActive(step), litRows, litBadges)
  }

  /** The diagram does not depend on the previous step (SimulationDiagram.tsx:10). */
  lemma RenderIgnoresPrevStep(step: Step, p1: Option<Step>, p2: Option<Step>)
    ensures Render(step, p1) == Render(step, p2)
  {
  }

  /** Which server row, and which client badge, a component label lights up. */
  lemma HighlightsByLabel(step: Step, prevStep: Option<Step>)
    ensures var v := Render(step, prevStep); var c := step.activeComponent;
      && (v.serverPanel ==>
            && (SecurityFilter in v.litRows <==> c == "filter" || c == "jwt")
            && (Controller in v.litRows <==> c == "controller")
            && (ServiceMapper in v.litRows <==> c == "mapper"))
      && (Storage in v.litBadges <==> c == "storage")
      && (Dom in v.litBadges <==> c == "render")
  {
  }

  /** A request from the client: both ends lit, forward flow on the first connector only. */
  lemma ClientToServerStep(step: Step)
    requires step.source == Client && step.target == Server
    ensures var v := Render(step, None);
      && v.active == {Client, Server} && Database !in v.active
      && v.packets == {ClientToServer}
      && v.flowingRight && !v.flowingLeft
  {
  }

  /** Work inside the server: no flow anywhere, the server panel shows the labelled row. */
  lemma InternalServerStep(step: Step, row: ServerRow)
    requires step.source == Server && step.target == Server
    requires RowHighlighted(row, step.activeComponent)
    ensures var v := Render(step, None);
      && v.active == {Server}
      && v.packets == {} && !v.flowingRight && !v.flowingLeft
      && v.serverPanel && v.litRows == {row}
  {
  }
}

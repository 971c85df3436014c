/** The application store (`frontend/src/lib/store.ts`): its state and the
    actions that change it, each a function from state to state. */
module Store {
  import opened Optional
  import opened DnaTypes

  datatype User = User(id: string, email: string, name: string, onboarded: bool, createdAt: string)

  /** The profile summary the store keeps; tone and audience are free text
      on this side. */
  datatype StoredDna = StoredDna(
    primaryTone: string,
    humorLevel: real,
    darkHumorPresent: bool,
    riskTolerance: RiskTolerance,
    audienceType: string,
    confidence: ConfidenceScores,
    generatedAt: string)

  datatype ProcessStatus = Idle | Active | Processing

  datatype AiProcess = AiProcess(
    id: string,
    name: string,
    status: ProcessStatus,
    lastRun: Option<string>,
    progress: Option<real>)

  /** `Partial<AIProcess>`: the fields an update sets. */
  datatype ProcessUpdate = ProcessUpdate(
    id: Option<string>,
    name: Option<string>,
    status: Option<ProcessStatus>,
    lastRun: Option<string>,
    progress: Option<real>)

  datatype AppState = AppState(
    user: Option<User>,
    isAuthenticated: bool,
    creatorDna: Option<StoredDna>,
    aiProcesses: seq<AiProcess>,
    onboardingStep: int,
    sidebarCollapsed: bool,
    rightPanelOpen: bool)

  function IdleProcess(id: string, name: string): AiProcess {
    AiProcess(id, name, Idle, None, None)
  }

  /** The state the store is created with. */
  const InitialState: AppState := AppState(
    None, false, None,
    [ IdleProcess("dna-scanner", "Creator DNA Scanner"),
      IdleProcess("growth-memory", "Growth Memory"),
      IdleProcess("emotion-analyzer", "Audience Emotion Analyzer"),
      IdleProcess("revenue-detector", "Revenue Opportunity Detector"),
      IdleProcess("risk-guard", "Risk Guard") ],
    0, false, false)

  /** The store's invariant: it reports a session exactly when it holds a user. */
  predicate Consistent(s: AppState) {
    s.isAuthenticated <==> s.user.Some?
  }

  // ---------------------------------------------------------------- actions

  /** `setUser`: the user, and whether there is one. */
  function SetUser(s: AppState, user: Option<User>): (r: AppState)
    ensures r.user == user && Consistent(r)
    ensures r.(user := s.user, isAuthenticated := s.isAuthenticated) == s
  {
    s.(user := user, isAuthenticated := user.Some?)
  }

  /** `logout`: no user, no session, no profile; the rest stays. */
  function Logout(s: AppState): (r: AppState)
    ensures r.user.None? && !r.isAuthenticated && r.creatorDna.None? && Consistent(r)
    ensures r.(user := s.user, isAuthenticated := s.isAuthenticated, creatorDna := s.creatorDna) == s
  {
    s.(user := None, isAuthenticated := false, creatorDna := None)
  }

  /** `setCreatorDNA`. */
  function SetCreatorDna(s: AppState, dna: StoredDna): (r: AppState)
    ensures r.creatorDna == Some(dna)
    ensures r.(creatorDna := s.creatorDna) == s
  {
    s.(creatorDna := Some(dna))
  }

  /** `{ ...p, ...updates }`: every field the update sets replaces the
      process's own. */
  function MergeProcess(p: AiProcess, u: ProcessUpdate): (r: AiProcess)
    ensures r.id == u.id.GetOr(p.id) && r.name == u.name.GetOr(p.name)
    ensures r.status == u.status.GetOr(p.status)
    ensures u.lastRun.Some? ==> r.lastRun == u.lastRun
    ensures u.lastRun.None? ==> r.lastRun == p.lastRun
    ensures u.progress.Some? ==> r.progress == u.progress
    ensures u.progress.None? ==> r.progress == p.progress
  {
    AiProcess(
      u.id.GetOr(p.id),
      u.name.GetOr(p.name),
      u.status.GetOr(p.status),
      if u.lastRun.Some? then u.lastRun else p.lastRun,
      if u.progress.Some? then u.progress else p.progress)
  }

  /** `aiProcesses.map(p => p.id === id ? { ...p, ...updates } : p)`. */
  function UpdateProcesses(ps: seq<AiProcess>, id: string, u: ProcessUpdate): (r: seq<AiProcess>)
    ensures |r| == |ps|
    ensures forall i :: 0 <= i < |ps| && ps[i].id == id ==> r[i] == MergeProcess(ps[i], u)
    ensures forall i :: 0 <= i < |ps| && ps[i].id != id ==> r[i] == ps[i]
  {
    seq(|ps|, i requires 0 <= i < |ps| => if ps[i].id == id then MergeProcess(ps[i], u) else ps[i])
  }

  /** `updateAIProcess`: only the process list changes. */
  function UpdateAiProcess(s: AppState, id: string, u: ProcessUpdate): (r: AppState)
    ensures r.aiProcesses == UpdateProcesses(s.aiProcesses, id, u)
    ensures r.(aiProcesses := s.aiProcesses) == s
  {
    s.(aiProcesses := UpdateProcesses(s.aiProcesses, id, u))
  }

  /** `setOnboardingStep`. */
  function SetOnboardingStep(s: AppState, step: int): (r: AppState)
    ensures r.onboardingStep == step
    ensures r.(onboardingStep := s.onboardingStep) == s
  {
    s.(onboardingStep := step)
  }

  /** `completeOnboarding`: back to the first step, and the user (if any)
      marked as onboarded. */
  function CompleteOnboarding(s: AppState): (r: AppState)
    ensures r.onboardingStep == 0
    ensures r.user.Some? <==> s.user.Some?
    ensures s.user.Some? ==> r.user.value == s.user.value.(onboarded := true)
    ensures r.(onboardingStep := s.onboardingStep, user := s.user) == s
  {
    s.(onboardingStep := 0, user := if s.user.Some? then Some(s.user.value.(onboarded := true)) else None)
  }

  /** `toggleSidebar`. */
  function ToggleSidebar(s: AppState): (r: AppState)
    ensures r.sidebarCollapsed == !s.sidebarCollapsed
    ensures r.(sidebarCollapsed := s.sidebarCollapsed) == s
  {
    s.(sidebarCollapsed := !s.sidebarCollapsed)
  }

  /** `toggleRightPanel`. */
  function ToggleRightPanel(s: AppState): (r: AppState)
    ensures r.rightPanelOpen == !s.rightPanelOpen
    ensures r.(rightPanelOpen := s.rightPanelOpen) == s
  {
    s.(rightPanelOpen := !s.rightPanelOpen)
  }

  /** Every action the store offers. */
  datatype Action =
    | SetUserAction(user: Option<User>)
    | LogoutAction
    | SetCreatorDnaAction(dna: StoredDna)
    | UpdateAiProcessAction(id: string, update: ProcessUpdate)
    | SetOnboardingStepAction(step: int)
    | CompleteOnboardingAction
    | ToggleSidebarAction
    | ToggleRightPanelAction

  function Step(s: AppState, a: Action): AppState {
    match a
    case SetUserAction(user) => SetUser(s, user)
    case LogoutAction => Logout(s)
    case SetCreatorDnaAction(dna) => SetCreatorDna(s, dna)
    case UpdateAiProcessAction(id, u) => UpdateAiProcess(s, id, u)
    case SetOnboardingStepAction(step) => SetOnboardingStep(s, step)
    case CompleteOnboardingAction => CompleteOnboarding(s)
    case ToggleSidebarAction => ToggleSidebar(s)
    case ToggleRightPanelAction => ToggleRightPanel(s)
  }

  /** The state after a run of actions. */
  function Run(s: AppState, actions: seq<Action>): AppState
    decreases |actions|
  {
    if |actions| == 0 then s else Run(Step(s, actions[0]), actions[1..])
  }

  // ---------------------------------------------------------------- properties

  /** Every action keeps the session flag in step with the user. */
  lemma StepKeepsConsistent(s: AppState, a: Action)
    requires Consistent(s)
    ensures Consistent(Step(s, a))
  {
  }

  /** Starting from the initial state, no run of actions ever reports a
      session without a user, or a user without a session. */
  lemma {:induction false} RunKeepsConsistent(s: AppState, actions: seq<Action>)
    requires Consistent(s)
    ensures Consistent(Run(s, actions))
    decreases |actions|
  {
    if |actions| > 0 {
      StepKeepsConsistent(s, actions[0]);
      RunKeepsConsistent(Step(s, actions[0]), actions[1..]);
    }
  }

  lemma InitialStateIsConsistent()
    ensures Consistent(InitialState)
  {
  }

  /** Toggling a panel twice restores the state. */
  lemma ToggleTwiceRestores(s: AppState)
    ensures ToggleSidebar(ToggleSidebar(s)) == s
    ensures ToggleRightPanel(ToggleRightPanel(s)) == s
  {
  }

  /** An update for an id no process has changes nothing. */
  lemma UnknownIdIsNoOp(s: AppState, id: string, u: ProcessUpdate)
    requires forall i :: 0 <= i < |s.aiProcesses| ==> s.aiProcesses[i].id != id
    ensures UpdateAiProcess(s, id, u) == s
  {
    assert UpdateProcesses(s.aiProcesses, id, u) == s.aiProcesses;
  }

  /** An update that leaves the id alone is idempotent: applying it twice
      is applying it once. */
  lemma UpdateIsIdempotent(ps: seq<AiProcess>, id: string, u: ProcessUpdate)
    requires u.id.None? || u.id == Some(id)
    ensures UpdateProcesses(UpdateProcesses(ps, id, u), id, u) == UpdateProcesses(ps, id, u)
  {
  }

  /** An update that leaves the id alone keeps the list of ids. */
  lemma UpdateKeepsIds(ps: seq<AiProcess>, id: string, u: ProcessUpdate, i: nat)
    requires u.id.None? || u.id == Some(id)
    requires i < |ps|
    ensures UpdateProcesses(ps, id, u)[i].id == ps[i].id
  {
  }

  /** Logging out after logging in leaves no trace of the user or the
      profile, and logging out is idempotent. */
  lemma LogoutForgetsUser(s: AppState, user: User)
    ensures Logout(SetUser(s, Some(user))) == Logout(s)
    ensures Logout(Logout(s)) == Logout(s)
  {
  }
}

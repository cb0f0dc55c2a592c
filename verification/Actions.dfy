/** Actions on surfaces: what a command asks for, and what the policy makes of it. */
module Actions {
  import opened ControlEvents

  datatype Target = Project(id: string) | Surface(kind: string, id: string, generation: nat)

  datatype Capability =
    | PaneObserve | PaneInput | PaneInterrupt | PaneFocus | PaneResize | PaneCreate | PaneClose
    | BrowserInspect | BrowserScreenshot | BrowserNavigate | BrowserInteract | BrowserHistory | BrowserClose
    | BrowserScript

  datatype Decision = Allowed | NeedsApproval

  datatype Classification = Classification(decision: Decision, capability: Capability)

  /** What the page itself says of an element; never the client's word. */
  datatype Semantic = Semantic(role: Option<string>, submit: Option<bool>, submitMethod: Option<string>,
                               submitDestination: Option<string>, secret: Option<bool>)

  datatype ElementKind = Click | Type | Select | Submit | Upload | Download | Scroll | FocusElement

  datatype Action =
    | Observe
    | SendText(text: string) | SendKeys(keys: string) | Interrupt(key: string) | Focus | Resize(cols: int, rows: int)
    | Create(title: string) | ClosePane
    | Inspect(screenshot: bool)
    | OnElement(kind: ElementKind, element: string, detail: string)
    | AnswerPermission(answer: string) | Navigate(url: string) | Reload | Back | Forward | Screenshot | CloseTab
    | Script(source: string, args: string)

  /** What an operator is shown of an action that needs approval. */
  datatype Effect = Effect(kind: string, target: string)

  /** The digest of what would be executed; different payloads have different digests. */
  datatype Executable = Executable(action: Action, semantic: Option<Semantic>)

  datatype Command = Command(id: string, ownerEpoch: nat, taskId: string, actorId: string, subjectId: Option<string>,
                             leaseId: string, leaseRevision: nat, expires: Option<int>, projectRoot: string,
                             target: Target, action: Action)

  /** A command as the runtime understands it at one time. */
  datatype Context = Context(command: Command, classification: Classification, effect: Option<Effect>,
                             executable: Executable)

  function Allow(c: Capability): Option<Classification> {
    Some(Classification(Allowed, c))
  }

  function Approve(c: Capability): Option<Classification> {
    Some(Classification(NeedsApproval, c))
  }

  function ClassifyElement(kind: ElementKind, semantic: Semantic): Option<Classification> {
    match kind
    case Click =>
      if semantic.submit.None? then None
      else if semantic.submit.value then Approve(BrowserInteract) else Allow(BrowserInteract)
    case Type =>
      if semantic.secret.None? then None
      else if semantic.secret.value then Approve(BrowserInteract) else Allow(BrowserInteract)
    case Select => Allow(BrowserInteract)
    case Scroll => Allow(BrowserInteract)
    case FocusElement => Allow(BrowserInteract)
    case Submit => Approve(BrowserInteract)
    case Upload => Approve(BrowserInteract)
    case Download => Approve(BrowserInteract)
  }

  /** The policy; nothing for an action it does not authorise, or whose element cannot be looked up. */
  function Classify(action: Action, semantic: Option<Semantic>): Option<Classification> {
    match action
    case Observe => Allow(PaneObserve)
    case SendText(_) => Allow(PaneInput)
    case SendKeys(_) => Allow(PaneInput)
    case Interrupt(_) => Allow(PaneInterrupt)
    case Focus => Allow(PaneFocus)
    case Resize(_, _) => Allow(PaneResize)
    case Create(_) => Allow(PaneCreate)
    case ClosePane => Approve(PaneClose)
    case Inspect(screenshot) => Allow(if screenshot then BrowserScreenshot else BrowserInspect)
    case OnElement(kind, _, _) => if semantic.Some? then ClassifyElement(kind, semantic.value) else None
    case AnswerPermission(_) => Approve(BrowserInteract)
    case Navigate(_) => Allow(BrowserNavigate)
    case Reload => Allow(BrowserHistory)
    case Back => Allow(BrowserHistory)
    case Forward => Allow(BrowserHistory)
    case Screenshot => Allow(BrowserScreenshot)
    case CloseTab => Approve(BrowserClose)
    case Script(_, _) => Approve(BrowserScript)
  }

  function EffectOnElement(kind: ElementKind, element: string, detail: string, semantic: Semantic): Option<Effect> {
    match kind
    case Click => if semantic.submit == Some(true) then Some(Effect("submit", element)) else None
    case Type => if semantic.secret == Some(true) then Some(Effect("secret_input", element)) else None
    case Submit => Some(Effect("submit", element))
    case Upload => Some(Effect("upload", detail))
    case Download => Some(Effect("download", detail))
    case _ => None
  }

  function EffectOf(command: Command, semantic: Option<Semantic>): Option<Effect> {
    match command.action
    case ClosePane => Some(Effect("close", command.target.id))
    case OnElement(kind, element, detail) =>
      if semantic.Some? then EffectOnElement(kind, element, detail, semantic.value) else None
    case AnswerPermission(answer) => Some(Effect("permission_response", answer))
    case CloseTab => Some(Effect("close", "browser tab"))
    case Script(source, _) => Some(Effect("script", source))
    case _ => None
  }

  /** A command as the policy and the page's `semantic` now make of it. */
  function Understood(command: Command, semantic: Option<Semantic>): Option<Context> {
    match Classify(command.action, semantic)
    case None => None
    case Some(c) =>
      Some(Context(command, c, EffectOf(command, semantic),
                   Executable(command.action, if command.action.OnElement? then semantic else None)))
  }

  /** An effect to show the operator is made exactly for the actions that need an approval. */
  lemma EffectIffApproval(command: Command, semantic: Option<Semantic>)
    requires Classify(command.action, semantic).Some?
    ensures EffectOf(command, semantic).Some? <==>
            Classify(command.action, semantic).value.decision.NeedsApproval?
  {
    match command.action
    case OnElement(kind, _, _) =>
      match kind {
        case Click =>
        case Type =>
        case _ =>
      }
    case _ =>
  }

  /** The capability by which the runtime tells whose lease a failed action was under: a table of its own. */
  function CapabilityFor(action: Action): Capability {
    match action
    case Observe => PaneObserve
    case SendText(_) => PaneInput
    case SendKeys(_) => PaneInput
    case Interrupt(_) => PaneInterrupt
    case Focus => PaneFocus
    case Resize(_, _) => PaneResize
    case Create(_) => PaneCreate
    case ClosePane => PaneClose
    case Inspect(screenshot) => if screenshot then BrowserScreenshot else BrowserInspect
    case OnElement(_, _, _) => BrowserInteract
    case AnswerPermission(_) => BrowserInteract
    case Navigate(_) => BrowserNavigate
    case Reload => BrowserHistory
    case Back => BrowserHistory
    case Forward => BrowserHistory
    case Screenshot => BrowserScreenshot
    case CloseTab => BrowserClose
    case Script(_, _) => BrowserScript
  }

  /**
   * The two tables agree: the capability the policy asks a lease for is the one
   * by which the action is later attributed to that lease.
   */
  lemma CapabilitiesAgree(action: Action, semantic: Option<Semantic>)
    ensures Classify(action, semantic).Some? ==> Classify(action, semantic).value.capability == CapabilityFor(action)
  {
    match action
    case OnElement(kind, _, _) =>
      match kind {
        case Click =>
        case Type =>
        case _ =>
      }
    case _ =>
  }

  /** The policy refuses exactly actions on elements of which the page does not say what it must know. */
  lemma ClassifiesIff(action: Action, semantic: Option<Semantic>)
    ensures Classify(action, semantic).None? <==>
            && action.OnElement?
            && (semantic.None? || (action.kind.Click? && semantic.value.submit.None?)
                || (action.kind.Type? && semantic.value.secret.None?))
  {
    match action
    case OnElement(kind, _, _) =>
      match kind {
        case Click =>
        case Type =>
        case _ =>
      }
    case _ =>
  }

  /** Two readings of one command agree: same target, decision, capability, effect and digest. */
  predicate ContextsMatch(a: Context, b: Context) {
    && a.command.target == b.command.target && a.classification == b.classification
    && a.executable == b.executable && a.effect == b.effect
  }
}

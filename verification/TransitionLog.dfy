/** The transition-log checker: it replays the set and control writes that Redis reported for one
    event and collects every rule they break. `Check` is one turn of its loop. */
module TransitionLog {
  import opened AdmissionTypes

  datatype SetName = WaitingSet | LeaseSet | ActiveSet | ClaimSet | WindowSet

  /** `Other` is any command that writes none of this: it only shows that the log has moved on. */
  datatype LogCommand =
    | ZAdd(epoch: Epoch, key: SetName, score: int, member: AdmissionId)
    | ZRem(epoch: Epoch, key: SetName, member: AdmissionId)
    | SetControl(generation: Option<nat>, epochField: Option<Epoch>, mode: Option<Mode>, runId: Option<int>)
    | Unlink(control: bool, sets: set<Epoch>)
    | Flush(restart: bool)
    | Other

  /** The command takes the sets of this epoch away. */
  predicate Clears(h: LogCommand, e: Epoch) {
    h.Flush? || (h.Unlink? && e in h.sets)
  }

  datatype Rule = Capacity | Rate | Repromotion | Fifo | ClaimWithoutSlot | Generation | RunId

  /** What the checker knows of one epoch's sets. */
  datatype Line = Line(
    waiting: map<AdmissionId, int>, active: set<AdmissionId>, claims: set<AdmissionId>,
    promoted: set<AdmissionId>, window: seq<int>, left: map<AdmissionId, int>,
    sequences: map<int, AdmissionId>)
  const EMPTY_LINE := Line(map[], {}, {}, {}, [], map[], map[])

  datatype ControlView = ControlView(generation: Option<nat>, epoch: Option<Epoch>, mode: Option<Mode>)
  datatype Published = Published(generation: nat, epoch: Option<Epoch>, closed: bool)

  datatype Checker = Checker(
    lines: map<Epoch, Line>, unslotted: seq<(Epoch, AdmissionId)>,
    current: Option<ControlView>, published: Option<Published>, alive: set<int>, gone: set<int>,
    promotions: nat, violations: seq<Rule>)
  const EMPTY_CHECKER := Checker(map[], [], None, None, {}, {}, 0, [])

  function LineOf(c: Checker, e: Epoch): Line {
    if e in c.lines then c.lines[e] else EMPTY_LINE
  }

  /** Promotions with low < instant <= high. */
  function CountIn(window: seq<int>, low: int, high: int): nat {
    if window == [] then 0 else
      CountIn(window[..|window| - 1], low, high) + (if low < window[|window| - 1] <= high then 1 else 0)
  }

  predicate Kept(command: Option<LogCommand>, member: AdmissionId) {
    command.Some? && command.value.ZRem? && command.value.member == member
  }

  predicate Outlived(lines: map<Epoch, Line>, e: Epoch, m: AdmissionId) {
    e in lines && m in lines[e].claims && m !in lines[e].active
  }

  function StillPending(pending: seq<(Epoch, AdmissionId)>, command: Option<LogCommand>): seq<(Epoch, AdmissionId)> {
    if pending == [] then [] else
      var n := |pending| - 1;
      StillPending(pending[..n], command) + (if Kept(command, pending[n].1) then [pending[n]] else [])
  }

  function Judged(pending: seq<(Epoch, AdmissionId)>, command: Option<LogCommand>, lines: map<Epoch, Line>): seq<Rule> {
    if pending == [] then [] else
      var n := |pending| - 1;
      Judged(pending[..n], command, lines) +
      (if !Kept(command, pending[n].1) && Outlived(lines, pending[n].0, pending[n].1) then [ClaimWithoutSlot] else [])
  }

  /** Slots that were just removed are judged when the log moves on to anything but their removal. */
  function Settle(c: Checker, command: Option<LogCommand>): Checker {
    c.(unslotted := StillPending(c.unslotted, command),
       violations := c.violations + Judged(c.unslotted, command, c.lines))
  }

  function Lose(c: Checker): Checker {
    c.(current := None,
       published := if c.published.Some? then Some(c.published.value.(closed := true)) else None)
  }

  function GenerationOf(v: ControlView): nat {
    if v.generation.Some? then v.generation.value else 0
  }

  /** The control part of an HSET: the run id first, then the generation rules. */
  function ApplyControl(c: Checker, h: LogCommand): Checker
    requires h.SetControl?
  {
    var dead := h.runId.Some? && h.runId.value in c.gone;
    var c1 := c.(alive := if h.runId.Some? && !dead then c.alive + {h.runId.value} else c.alive,
                 violations := if dead then c.violations + [RunId] else c.violations);
    var before := if c.current.Some? then c.current.value else ControlView(None, None, None);
    var now := ControlView(
      if h.generation.Some? then h.generation else before.generation,
      if h.epochField.Some? then h.epochField else before.epoch,
      if h.mode.Some? then h.mode else before.mode);
    if now == before then c1 else
      ApplyChange(c1.(current := Some(now)), now)
  }

  function ApplyChange(c: Checker, now: ControlView): Checker {
    var generation := GenerationOf(now);
    if now.mode == Some(Frozen) then
      if c.published.Some? && c.published.value.generation == generation && c.published.value.epoch == now.epoch
      then c.(published := Some(c.published.value.(closed := true))) else c
    else if c.published.Some? && generation < c.published.value.generation then
      c.(violations := c.violations + [Generation])
    else if now.mode != Some(Ready) then c
    else if c.published.Some? && generation == c.published.value.generation then
      if c.published.value.epoch != now.epoch || c.published.value.closed
      then c.(violations := c.violations + [Generation]) else c
    else c.(published := Some(Published(generation, now.epoch, false)))
  }

  function RemoveFrom(c: Checker, e: Epoch, key: SetName, m: AdmissionId): Checker {
    var l := LineOf(c, e);
    match key
    case WaitingSet =>
      if m in l.waiting
      then c.(lines := c.lines[e := l.(left := l.left[m := l.waiting[m]], waiting := l.waiting - {m})])
      else c.(lines := c.lines[e := l])
    case ActiveSet =>
      c.(lines := c.lines[e := l.(left := l.left - {m}, active := l.active - {m})],
         unslotted := if m in l.active && m in l.claims then c.unslotted + [(e, m)] else c.unslotted)
    case ClaimSet => c.(lines := c.lines[e := l.(left := l.left - {m}, claims := l.claims - {m})])
    case _ => c.(lines := c.lines[e := l])
  }

  function Enqueue(c: Checker, e: Epoch, sequence: int, m: AdmissionId): Checker {
    var l := LineOf(c, e);
    var shared := sequence in l.sequences && l.sequences[sequence] != m;
    c.(lines := c.lines[e := l.(sequences := l.sequences[sequence := m], waiting := l.waiting[m := sequence])],
       violations := if shared then c.violations + [Fifo] else c.violations)
  }

  predicate Overtakes(l: Line, m: AdmissionId) {
    m in l.left && exists x | x in l.waiting :: l.waiting[x] < l.left[m]
  }

  function PromotionRules(l: Line, m: AdmissionId): seq<Rule> {
    (if m in l.promoted then [Repromotion] else if m !in l.left then [Fifo] else []) +
    (if Overtakes(l, m) then [Fifo] else [])
  }

  function BudgetRules(l: Line, now: int, profile: Profile): seq<Rule> {
    (if |l.active| > profile.capacity then [Capacity] else []) +
    (if CountIn(l.window, now - 1000, now) > profile.rate then [Rate] else [])
  }

  /** An entry takes a slot; the score is the script's clock plus the admission TTL. */
  function Occupy(c: Checker, e: Epoch, score: int, m: AdmissionId, profile: Profile): Checker {
    var l := LineOf(c, e);
    var now := score - profile.ttlMs;
    var l' := l.(left := l.left - {m}, promoted := l.promoted + {m}, active := l.active + {m}, window := l.window + [now]);
    c.(lines := c.lines[e := l'], promotions := c.promotions + 1,
       violations := c.violations + PromotionRules(l, m) + BudgetRules(l', now, profile))
  }

  function Insert(c: Checker, h: LogCommand, profile: Profile): Checker
    requires h.ZAdd?
  {
    match h.key
    case WaitingSet => Enqueue(c, h.epoch, h.score, h.member)
    case ActiveSet => Occupy(c, h.epoch, h.score, h.member, profile)
    case ClaimSet =>
      var l := LineOf(c, h.epoch);
      c.(lines := c.lines[h.epoch := l.(claims := l.claims + {h.member})],
         violations := if h.member in l.active then c.violations else c.violations + [ClaimWithoutSlot])
    case _ => c.(lines := c.lines[h.epoch := LineOf(c, h.epoch)])
  }

  /** One command of the log. */
  function Check(c: Checker, h: LogCommand, profile: Profile): Checker {
    var c1 :=
      if h.Flush? && h.restart
      then c.(unslotted := [], gone := c.gone + c.alive, alive := {})
      else Settle(c, Some(h));
    match h
    case Flush(_) => Lose(c1.(lines := map[]))
    case Unlink(control, sets) =>
      var c2 := c1.(lines := c1.lines - sets);
      if control then Lose(c2) else c2
    case SetControl(_, _, _, _) => ApplyControl(c1, h)
    case ZRem(e, key, m) => RemoveFrom(c1, e, key, m)
    case ZAdd(_, _, _, _) => Insert(c1, h, profile)
    case Other => c1
  }

  function Replay(log: seq<LogCommand>, profile: Profile): Checker {
    if log == [] then EMPTY_CHECKER else
      Check(Replay(log[..|log| - 1], profile), log[|log| - 1], profile)
  }

  function Verdict(log: seq<LogCommand>, profile: Profile): Checker {
    Settle(Replay(log, profile), None)
  }
}

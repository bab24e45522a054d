/**
 * The tutorial session: its workflow state machine, creation with an expiry
 * deadline, strict expiry and extension (backend/src/models/tutorial_session.py).
 */
module Workflow {
  import opened Wrappers
  import opened Clock
  import Storage

  datatype WorkflowState = Initial | AudioUploaded | ContentAdded | Processing | Completed | Error

  /** The `valid_transitions` table: the states each state may move to. */
  function ValidTransitions(current: WorkflowState): seq<WorkflowState>
  {
    match current
    case Initial => [AudioUploaded, Error]
    case AudioUploaded => [ContentAdded, Processing, Error]
    case ContentAdded => [Processing, Error]
    case Processing => [Completed, Error]
    case Completed => [Initial, Error]
    case Error => [Processing, Initial]
  }

  /** The workflow's legal edges as a set of pairs. */
  const LegalEdges: set<(WorkflowState, WorkflowState)> := {
    (Initial, AudioUploaded), (Initial, Error),
    (AudioUploaded, ContentAdded), (AudioUploaded, Processing), (AudioUploaded, Error),
    (ContentAdded, Processing), (ContentAdded, Error),
    (Processing, Completed), (Processing, Error),
    (Completed, Initial), (Completed, Error),
    (Error, Processing), (Error, Initial)
  }

  /**
   * `_is_valid_state_transition`: membership of the pair in the table.  It
   * agrees with the edge list in both directions, has no self-loops, admits
   * `Completed` only after `Processing`, `Error` from every other state, and
   * leaves `Error` only to retry or reset.
   */
  function IsValidTransition(current: WorkflowState, next: WorkflowState): (r: bool)
    ensures r <==> (current, next) in LegalEdges
    ensures r ==> current != next
    ensures next == Completed ==> (r <==> current == Processing)
    ensures next == Error ==> (r <==> current != Error)
    ensures current == Error ==> (r <==> next == Processing || next == Initial)
  {
    next in ValidTransitions(current)
  }

  const DefaultVoice: string := "professional_female"
  const DefaultStyle: string := "conversational"
  const DefaultTimeoutHours: int := 4

  datatype UserPreferences = UserPreferences(
    preferredVoice: string,
    summaryStyle: string,
    emphasisAreas: seq<string>,
    customTerminology: map<string, string>)

  /** The preferences dictionary handed to `create_new`; `None` marks a missing key. */
  datatype PreferencesInput = PreferencesInput(
    preferredVoice: Option<string>,
    summaryStyle: Option<string>,
    emphasisAreas: Option<seq<string>>,
    customTerminology: Option<map<string, string>>)

  function GetOr<T>(o: Option<T>, default: T): T
  {
    match o
    case Some(v) => v
    case None => default
  }

  /** The preference parsing of `create_new`: a key that is present wins, a missing key keeps the default. */
  function ParsePreferences(input: Option<PreferencesInput>): (p: UserPreferences)
    ensures input.Some? && input.value.preferredVoice.Some? ==> p.preferredVoice == input.value.preferredVoice.value
    ensures input.None? || input.value.preferredVoice.None? ==> p.preferredVoice == DefaultVoice
    ensures input.Some? && input.value.summaryStyle.Some? ==> p.summaryStyle == input.value.summaryStyle.value
    ensures input.None? || input.value.summaryStyle.None? ==> p.summaryStyle == DefaultStyle
    ensures input.Some? && input.value.emphasisAreas.Some? ==> p.emphasisAreas == input.value.emphasisAreas.value
    ensures input.None? || input.value.emphasisAreas.None? ==> p.emphasisAreas == []
    ensures input.Some? && input.value.customTerminology.Some? ==> p.customTerminology == input.value.customTerminology.value
    ensures input.None? || input.value.customTerminology.None? ==> p.customTerminology == map[]
  {
    match input
    case None => UserPreferences(DefaultVoice, DefaultStyle, [], map[])
    case Some(d) =>
      UserPreferences(
        GetOr(d.preferredVoice, DefaultVoice),
        GetOr(d.summaryStyle, DefaultStyle),
        GetOr(d.emphasisAreas, []),
        GetOr(d.customTerminology, map[]))
  }

  /** The fields `to_dict` serialises into the session's metadata file. */
  datatype SessionRecord = SessionRecord(
    sessionId: string,
    state: WorkflowState,
    createdAt: int,
    lastUpdated: int,
    expiresAt: int,
    userAgent: string,
    preferences: UserPreferences)

  class TutorialSession {
    const id: string
    var state: WorkflowState
    var createdAt: int
    var lastUpdated: int
    var expiresAt: int
    var userAgent: string
    var preferences: UserPreferences
    var workspacePath: Option<Storage.Path>

    /** `create_new`: `id` is the fresh `uuid4()` and `now` the one clock reading. */
    constructor CreateNew(id: string, now: int, userAgent: string, preferences: Option<PreferencesInput>, timeoutHours: int)
      ensures this.id == id && state == Initial
      ensures createdAt == now && lastUpdated == now && expiresAt == now + Hours(timeoutHours)
      ensures timeoutHours > 0 ==> expiresAt > createdAt
      ensures this.userAgent == userAgent && this.preferences == ParsePreferences(preferences)
      ensures workspacePath == None
    {
      this.id := id;
      state := Initial;
      createdAt := now;
      lastUpdated := now;
      expiresAt := now + Hours(timeoutHours);
      this.userAgent := userAgent;
      this.preferences := ParsePreferences(preferences);
      workspacePath := None;
    }

    /** `update_state`; `ok == false` stands for the `ValueError` raised on an illegal pair. */
    method UpdateState(newState: WorkflowState, now: int) returns (ok: bool)
      modifies this
      ensures ok == IsValidTransition(old(state), newState)
      ensures ok ==> state == newState && lastUpdated == now
      ensures !ok ==> state == old(state) && lastUpdated == old(lastUpdated)
      ensures createdAt == old(createdAt) && expiresAt == old(expiresAt) && userAgent == old(userAgent)
      ensures preferences == old(preferences) && workspacePath == old(workspacePath)
    {
      if !IsValidTransition(state, newState) {
        return false;
      }
      state := newState;
      lastUpdated := now;
      return true;
    }

    /** `is_expired`: strictly after the deadline. */
    predicate IsExpired(now: int)
      reads this
      ensures IsExpired(now) <==> expiresAt < now
      ensures now == expiresAt ==> !IsExpired(now)
    {
      now > expiresAt
    }

    /** `extend_expiration`: the new deadline is measured from now, not from the old deadline. */
    method ExtendExpiration(now: int, additionalHours: int)
      modifies this
      ensures expiresAt == now + Hours(additionalHours) && lastUpdated == now
      ensures now >= createdAt && additionalHours > 0 ==> expiresAt > createdAt && !IsExpired(now)
      ensures state == old(state) && createdAt == old(createdAt) && userAgent == old(userAgent)
      ensures preferences == old(preferences) && workspacePath == old(workspacePath)
    {
      expiresAt := now + Hours(additionalHours);
      lastUpdated := now;
    }

    /** The fields `to_dict` reports, each taken from the session as it stands. */
    function ToRecord(): (r: SessionRecord)
      reads this
      ensures r.sessionId == id && r.state == state
      ensures r.createdAt == createdAt && r.lastUpdated == lastUpdated && r.expiresAt == expiresAt
      ensures r.userAgent == userAgent && r.preferences == preferences
    {
      SessionRecord(id, state, createdAt, lastUpdated, expiresAt, userAgent, preferences)
    }
  }

  /** Expiry is permanent: without an extension, a session expired at one instant stays expired at every later one. */
  lemma ExpiryIsPermanent(s: TutorialSession, now: int, later: int)
    requires now <= later
    ensures s.IsExpired(now) ==> s.IsExpired(later)
  {
  }
}

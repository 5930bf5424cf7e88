/**
 * Creating and joining group chats (hooks/useChatActions.ts): the guards in
 * front of the two requests, the effects a settled request asks for, and the
 * form state (`inviteCode`, `groupData`) with the two requests' pending flags.
 */
module ChatActions {
  import opened Wrappers
  import Feedback

  /** The new-group form. */
  datatype GroupData = GroupData(title: string, desc: string)

  const EmptyGroup := GroupData("", "")
  const EnterGroupName := "Please enter a group name"
  const EnterInviteCode := "Please enter an invite code"
  const CreateFailed := "Something went wrong"
  const JoinFailed := "Could not join chat"

  /** The two requests: create a group from a title and description, join a chat by invite code. */
  datatype Request = CreateGroup(title: string, description: string) | JoinChat(inviteCode: string)

  /** What a submit handler does: alert (and send nothing) or send one request. */
  datatype Submission = Alert(text: string) | Send(request: Request)

  /**
   * How a request settled: the server answered with a body carrying `status`,
   * or the request threw with an optional error message.
   */
  datatype Settled = Responded(status: string) | Threw(message: Option<string>)

  /**
   * The outside effects of a settled request: an alert to show, whether the
   * chat list is refreshed, whether the app goes back to the chat list, and
   * whether the caller's success callback runs.
   */
  datatype Effects = Effects(alert: Option<string>, refreshChats: bool, goHome: bool, runCallback: bool)

  /** The guard of `handleCreate`: only the title is required. */
  function CheckCreate(g: GroupData): (s: Submission)
    ensures s.Send? <==> g.title != ""
    ensures s.Send? ==> s.request == CreateGroup(g.title, g.desc)
    ensures s.Alert? ==> s.text == EnterGroupName
  {
    if g.title == "" then Alert(EnterGroupName) else Send(CreateGroup(g.title, g.desc))
  }

  /** The guard of `handleJoin`: the invite code is required. */
  function CheckJoin(inviteCode: string): (s: Submission)
    ensures s.Send? <==> inviteCode != ""
    ensures s.Send? ==> s.request == JoinChat(inviteCode)
    ensures s.Alert? ==> s.text == EnterInviteCode
  {
    if inviteCode == "" then Alert(EnterInviteCode) else Send(JoinChat(inviteCode))
  }

  /**
   * A settled create: only a body with status "success" refreshes the chat list
   * and navigates; any answer runs the caller's callback; a throw alerts.
   */
  function CreateEffects(outcome: Settled): (e: Effects)
    ensures e.goHome <==> outcome == Responded("success")
    ensures e.refreshChats <==> e.goHome
    ensures e.runCallback <==> outcome.Responded?
    ensures e.alert.Some? <==> outcome.Threw?
    ensures outcome.Threw? ==> e.alert == Some(Feedback.ErrorText(outcome.message, CreateFailed))
  {
    match outcome
    case Responded(status) => Effects(None, status == "success", status == "success", true)
    case Threw(message) => Effects(Some(Feedback.ErrorText(message, CreateFailed)), false, false, false)
  }

  /** A settled join: any answer counts as success, whatever its status; a throw alerts. */
  function JoinEffects(outcome: Settled): (e: Effects)
    ensures e.goHome <==> outcome.Responded?
    ensures e.refreshChats <==> outcome.Responded?
    ensures e.runCallback <==> outcome.Responded?
    ensures e.alert.Some? <==> outcome.Threw?
    ensures outcome.Threw? ==> e.alert == Some(Feedback.ErrorText(outcome.message, JoinFailed))
  {
    match outcome
    case Responded(_) => Effects(None, true, true, true)
    case Threw(message) => Effects(Some(Feedback.ErrorText(message, JoinFailed)), false, false, false)
  }

  /** The state the hook keeps between renders. */
  class ChatActionsState {
    var inviteCode: string
    var groupData: GroupData
    var createPending: bool
    var joinPending: bool

    constructor ()
      ensures inviteCode == "" && groupData == EmptyGroup
      ensures !createPending && !joinPending
    {
      inviteCode := "";
      groupData := EmptyGroup;
      createPending := false;
      joinPending := false;
    }

    /** The `loading` flag given to the screens. */
    function Loading(): (loading: bool)
      reads this
      ensures loading <==> createPending || joinPending
      ensures !createPending && !joinPending ==> !loading
    {
      createPending || joinPending
    }

    /** The invite-code input changed. */
    method SetInviteCode(code: string)
      modifies this`inviteCode
      ensures inviteCode == code
    {
      inviteCode := code;
    }

    /** The new-group form changed. */
    method SetGroupData(g: GroupData)
      modifies this`groupData
      ensures groupData == g
    {
      groupData := g;
    }

    /** Submit the new-group form: alert on an empty title, otherwise send the current form. */
    method HandleCreate() returns (s: Submission)
      modifies this`createPending
      ensures s == CheckCreate(groupData)
      ensures createPending == (old(createPending) || s.Send?)
      ensures s.Send? ==> Loading()
    {
      s := CheckCreate(groupData);
      if s.Send? {
        createPending := true;
      }
    }

    /** The create request settled: the form is cleared only on a "success" body. */
    method CreateSettled(outcome: Settled) returns (e: Effects)
      modifies this`groupData, this`createPending
      ensures e == CreateEffects(outcome)
      ensures groupData == if outcome == Responded("success") then EmptyGroup else old(groupData)
      ensures !createPending
      ensures Loading() <==> joinPending
    {
      e := CreateEffects(outcome);
      if outcome == Responded("success") {
        groupData := EmptyGroup;
      }
      createPending := false;
    }

    /** Submit the invite code: alert on an empty code, otherwise send it. */
    method HandleJoin() returns (s: Submission)
      modifies this`joinPending
      ensures s == CheckJoin(inviteCode)
      ensures joinPending == (old(joinPending) || s.Send?)
      ensures s.Send? ==> Loading()
    {
      s := CheckJoin(inviteCode);
      if s.Send? {
        joinPending := true;
      }
    }

    /** The join request settled: any answer clears the invite code; the new-group form is untouched. */
    method JoinSettled(outcome: Settled) returns (e: Effects)
      modifies this`inviteCode, this`joinPending
      ensures e == JoinEffects(outcome)
      ensures inviteCode == if outcome.Responded? then "" else old(inviteCode)
      ensures !joinPending
      ensures Loading() <==> createPending
    {
      e := JoinEffects(outcome);
      if outcome.Responded? {
        inviteCode := "";
      }
      joinPending := false;
    }
  }
}

/** The functions handed to the workflow runner and how an event name selects them. */
module Triggers {

  /** A function is started by an event of one exact name, or by a cron schedule. */
  datatype Trigger = OnEvent(name: string) | OnCron(schedule: string)

  datatype FunctionDef = FunctionDef(id: string, trigger: Trigger)

  /** An event sent to the runner: its name and the one id its data carries. */
  datatype Event = Event(name: string, payload: string)

  const SyncUserCreationFn := FunctionDef("sync-user-from-clerk", OnEvent("clerk/user.created"))
  const SyncUserUpdationFn := FunctionDef("update-user-from-clerk", OnEvent("clerk/user.updated"))
  const SyncUserDeletionFn := FunctionDef("delete-user-from-clerk", OnEvent("clerk/user.deleted"))
  const ConnectionReminderFn :=
    FunctionDef("send-connection-request-reminder", OnEvent("app/connection-request"))
  const DeleteStoryFn := FunctionDef("story-delete", OnEvent("app/story.delete"))
  const UnseenDigestFn :=
    FunctionDef("send-unseen-messages-notification", OnCron("TZ=America/New_York 0 9 * * *"))

  /** The exported `functions` array, in its order. */
  const Registered: seq<FunctionDef> := [SyncUserCreationFn, SyncUserUpdationFn,
    SyncUserDeletionFn, ConnectionReminderFn, DeleteStoryFn, UnseenDigestFn]

  /** Six functions are registered, under six different ids. */
  lemma RegisteredIdsDistinct()
    ensures |Registered| == 6
    ensures forall i, j :: 0 <= i < j < |Registered| ==> Registered[i].id != Registered[j].id
  {
    // the ids differ in length except update/delete, which differ at their first character
    assert |SyncUserCreationFn.id| == 20 && |ConnectionReminderFn.id| == 32;
    assert |SyncUserUpdationFn.id| == 22 && |SyncUserDeletionFn.id| == 22;
    assert |DeleteStoryFn.id| == 12 && |UnseenDigestFn.id| == 33;
    assert SyncUserUpdationFn.id[0] == 'u' && SyncUserDeletionFn.id[0] == 'd';
  }

  /** The registered functions an event named `name` starts, in registration order. */
  function Triggered(fns: seq<FunctionDef>, name: string): (r: seq<FunctionDef>)
    ensures forall f :: f in r <==> f in fns && f.trigger == OnEvent(name)
    ensures |r| <= |fns|
  {
    if fns == [] then []
    else if fns[0].trigger == OnEvent(name) then [fns[0]] + Triggered(fns[1..], name)
    else Triggered(fns[1..], name)
  }

  /** An event name that no trigger carries starts nothing. */
  lemma {:induction false} TriggeredNone(fns: seq<FunctionDef>, name: string)
    requires forall i :: 0 <= i < |fns| ==> fns[i].trigger != OnEvent(name)
    ensures Triggered(fns, name) == []
  {
    if fns != [] {
      TriggeredNone(fns[1..], name);
    }
  }

  /** An event name carried by the trigger of exactly one function starts that one alone. */
  lemma {:induction false} TriggeredSingle(fns: seq<FunctionDef>, name: string, k: nat)
    requires k < |fns| && fns[k].trigger == OnEvent(name)
    requires forall i :: 0 <= i < |fns| && i != k ==> fns[i].trigger != OnEvent(name)
    ensures Triggered(fns, name) == [fns[k]]
  {
    if k == 0 {
      TriggeredNone(fns[1..], name);
    } else {
      TriggeredSingle(fns[1..], name, k - 1);
    }
  }

  /** The Clerk events start their own handlers. */
  lemma ClerkEventsStartOne()
    ensures Triggered(Registered, "clerk/user.created") == [SyncUserCreationFn]
    ensures Triggered(Registered, "clerk/user.updated") == [SyncUserUpdationFn]
    ensures Triggered(Registered, "clerk/user.deleted") == [SyncUserDeletionFn]
  {
    // the three Clerk names have one length and differ at their twelfth character
    assert "clerk/user.created"[11] == 'c';
    assert "clerk/user.updated"[11] == 'u';
    assert "clerk/user.deleted"[11] == 'd';
    TriggeredSingle(Registered, "clerk/user.created", 0);
    TriggeredSingle(Registered, "clerk/user.updated", 1);
    TriggeredSingle(Registered, "clerk/user.deleted", 2);
  }

  /** A connection request starts the reminder workflow and nothing else. */
  lemma ConnectionRequestStartsReminder()
    ensures Triggered(Registered, "app/connection-request") == [ConnectionReminderFn]
  {
    TriggeredSingle(Registered, "app/connection-request", 3);
  }

  /** `addUserStory` as written: the deletion request is sent as `app/story-delete`. */
  function StoryDeletionRequestAsWritten(storyId: string): (e: Event)
    ensures e.payload == storyId
  {
    Event("app/story-delete", storyId)
  }

  /** The request as the trigger of `deleteStory` expects it: `app/story.delete`. */
  function StoryDeletionRequest(storyId: string): (e: Event)
    ensures e.payload == storyId
    ensures e.name == DeleteStoryFn.trigger.name
  {
    Event("app/story.delete", storyId)
  }

  /** As written, the deletion request starts no function, so no story ever expires. */
  lemma StoryDeletionRequestAsWrittenUnmatched(storyId: string)
    ensures Triggered(Registered, StoryDeletionRequestAsWritten(storyId).name) == []
  {
    var name := StoryDeletionRequestAsWritten(storyId).name;
    assert name[9] == '-' && DeleteStoryFn.trigger.name[9] == '.';
    TriggeredNone(Registered, name);
  }

  /** With the corrected name, the request starts exactly the story-delete function. */
  lemma StoryDeletionRequestMatched(storyId: string)
    ensures Triggered(Registered, StoryDeletionRequest(storyId).name) == [DeleteStoryFn]
  {
    TriggeredSingle(Registered, StoryDeletionRequest(storyId).name, 4);
  }
}

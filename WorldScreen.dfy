/** The world screen (components/WorldView.tsx): submitting a turn and the two views derived
    from the current world, the latest model message and the current chapter. */
module WorldScreen {
  import opened Types
  import opened Text
  import opened PlotTree
  import opened Gemini
  import opened Registry
  import opened Atlas

  /** The message a submission appends before the service is asked. */
  function UserMessage(text: string, now: int): Message {
    Message(User, text, now, None, None)
  }

  /** The world as shown while the turn is in flight: only the history differs. */
  function PendingWorld(world: WorldState, text: string, now: int): WorldState {
    world.(chatHistory := world.chatHistory + [UserMessage(text, now)])
  }

  /** The world once the turn has come back: the reply's message is appended, the plot tree
      is replaced only when the reply carries one, and the time of activity is set. */
  function AnsweredWorld(pendingWorld: WorldState, result: TurnResult, now: int): WorldState {
    pendingWorld.(
      chatHistory := pendingWorld.chatHistory + [result.message],
      plotTree := result.updatedPlotTree.GetOr(pendingWorld.plotTree),
      lastActive := Some(now))
  }

  /** A whole turn: the user's message at `sentAt`, the service's reply answered at `answeredAt`,
      the world saved at `now`. */
  function Turn(world: WorldState, text: string, lang: Language, reply: ServiceReply<TurnJson>,
                sentAt: int, answeredAt: int, now: int): WorldState
  {
    var pendingWorld := PendingWorld(world, text, sentAt);
    AnsweredWorld(pendingWorld, SendChatMessage(pendingWorld, lang, reply, answeredAt), now)
  }

  /** Every turn appends exactly the user's message and then one model message, whatever
      the reply; the plot tree is either kept or replaced by the transition the reply
      proposes; nothing else but the time of activity changes. */
  lemma TurnAppendsTwoMessages(world: WorldState, text: string, lang: Language, reply: ServiceReply<TurnJson>,
                               sentAt: int, answeredAt: int, now: int)
    ensures var w := Turn(world, text, lang, reply, sentAt, answeredAt, now);
      && |w.chatHistory| == |world.chatHistory| + 2
      && w.chatHistory[..|world.chatHistory|] == world.chatHistory
      && w.chatHistory[|world.chatHistory|] == UserMessage(text, sentAt)
      && w.chatHistory[|world.chatHistory| + 1].role == Model
      && w == world.(chatHistory := w.chatHistory, plotTree := w.plotTree, lastActive := Some(now))
      && (!Usable(reply) ==> w.chatHistory[|world.chatHistory| + 1] == Fallback(lang, answeredAt).message
                             && w.plotTree == world.plotTree)
      && (Usable(reply) && reply.json.value.plotUpdates.None? ==> w.plotTree == world.plotTree)
      && (Usable(reply) && reply.json.value.plotUpdates.Some? ==>
            w.plotTree == ApplyPlotUpdates(world.plotTree, reply.json.value.plotUpdates.value))
  {
    var w := Turn(world, text, lang, reply, sentAt, answeredAt, now);
    assert w.chatHistory == world.chatHistory + [UserMessage(text, sentAt)]
                            + [SendChatMessage(PendingWorld(world, text, sentAt), lang, reply, answeredAt).message];
  }

  function Reversed<T>(s: seq<T>): (r: seq<T>)
    ensures |r| == |s|
    ensures forall i :: 0 <= i < |s| ==> r[i] == s[|s| - 1 - i]
  {
    if s == [] then [] else Reversed(s[1..]) + [s[0]]
  }

  /** The first model message of `s`. */
  function FirstModelMessage(s: seq<Message>): (r: Option<Message>)
    ensures r.None? <==> forall i :: 0 <= i < |s| ==> s[i].role != Model
    ensures r.Some? ==> exists i :: 0 <= i < |s| && s[i] == r.value && r.value.role == Model
                                    && forall j :: 0 <= j < i ==> s[j].role != Model
  {
    if s == [] then None
    else if s[0].role == Model then Some(s[0])
    else
      var r := FirstModelMessage(s[1..]);
      assert r.Some? ==> exists i :: 0 < i < |s| && s[i] == r.value && forall j :: 0 <= j < i ==> s[j].role != Model by {
        if r.Some? {
          var k :| 0 <= k < |s[1..]| && s[1..][k] == r.value && r.value.role == Model
                   && forall j :: 0 <= j < k ==> s[1..][j].role != Model;
          assert s[k + 1] == r.value;
          forall j | 0 <= j < k + 1 ensures s[j].role != Model {
            if j > 0 { assert s[j] == s[1..][j - 1]; }
          }
        }
      }
      r
  }

  /** The latest model message of the history, found by searching the reversed history. */
  function LastModelMessage(history: seq<Message>): Option<Message> {
    FirstModelMessage(Reversed(history))
  }

  /** The reversed search finds the model message that no later model message follows,
      and finds none exactly when the history holds no model message. */
  lemma LastModelMessageIsLatest(history: seq<Message>)
    ensures LastModelMessage(history).None? <==> forall i :: 0 <= i < |history| ==> history[i].role == User
    ensures LastModelMessage(history).Some? ==>
              exists k :: 0 <= k < |history| && history[k] == LastModelMessage(history).value
                          && history[k].role == Model
                          && forall j :: k < j < |history| ==> history[j].role == User
  {
    var rev := Reversed(history);
    var n := |history|;
    if LastModelMessage(history).None? {
      forall i | 0 <= i < n ensures history[i].role == User {
        assert rev[n - 1 - i] == history[i];
      }
    } else {
      var m := LastModelMessage(history).value;
      var i :| 0 <= i < n && rev[i] == m && m.role == Model && forall j :: 0 <= j < i ==> rev[j].role != Model;
      var k := n - 1 - i;
      assert history[k] == m;
      forall j | k < j < n ensures history[j].role == User {
        assert rev[n - 1 - j] == history[j];
      }
    }
  }

  /** After a turn the latest model message is the one the turn appended. */
  lemma TurnShowsItsReply(world: WorldState, text: string, lang: Language, reply: ServiceReply<TurnJson>,
                          sentAt: int, answeredAt: int, now: int)
    ensures var w := Turn(world, text, lang, reply, sentAt, answeredAt, now);
      LastModelMessage(w.chatHistory) == Some(w.chatHistory[|w.chatHistory| - 1])
  {
    var w := Turn(world, text, lang, reply, sentAt, answeredAt, now);
    TurnAppendsTwoMessages(world, text, lang, reply, sentAt, answeredAt, now);
    var rev := Reversed(w.chatHistory);
    assert rev[0] == w.chatHistory[|w.chatHistory| - 1];
  }

  /** The current chapter: the first node whose status is active. */
  function CurrentChapter(tree: seq<StoryNode>): (r: Option<StoryNode>)
    ensures r.None? <==> forall i :: 0 <= i < |tree| ==> tree[i].status != Active
    ensures r.Some? ==> exists i :: 0 <= i < |tree| && tree[i] == r.value && r.value.status == Active
                                    && forall j :: 0 <= j < i ==> tree[j].status != Active
  {
    if tree == [] then None
    else if tree[0].status == Active then Some(tree[0])
    else
      var r := CurrentChapter(tree[1..]);
      assert r.Some? ==> exists i :: 0 < i < |tree| && tree[i] == r.value && forall j :: 0 <= j < i ==> tree[j].status != Active by {
        if r.Some? {
          var k :| 0 <= k < |tree[1..]| && tree[1..][k] == r.value && r.value.status == Active
                   && forall j :: 0 <= j < k ==> tree[1..][j].status != Active;
          assert tree[k + 1] == r.value;
          forall j | 0 <= j < k + 1 ensures tree[j].status != Active {
            if j > 0 { assert tree[j] == tree[1..][j - 1]; }
          }
        }
      }
      r
  }

  /** When at most one node is active, the current chapter is that node. */
  lemma CurrentChapterIsTheActiveNode(tree: seq<StoryNode>, i: nat)
    requires AtMostOneActive(tree) && i < |tree| && tree[i].status == Active
    ensures CurrentChapter(tree) == Some(tree[i])
  {
    var k :| 0 <= k < |tree| && tree[k] == CurrentChapter(tree).value && tree[k].status == Active;
    assert k == i;
  }

  /** The world screen. `world` is the world the app passes in; `app` receives every update
      (the `onUpdateWorld` callback is the app's `HandleWorldUpdate`). */
  class WorldView {
    const app: App
    const lang: Language
    var world: WorldState
    var isLoading: bool
    var inputText: string
    /** The template list as the app's auto-save saw it when the turn in flight was sent:
        the `onUpdateWorld` that the send handler keeps across its `await` maps over it. */
    var sendSnapshot: seq<WorldTemplate>

    /** The screen shows the app's current world. */
    ghost predicate Valid()
      reads this, app
    {
      app.currentWorld == Some(world)
    }

    constructor (app: App, lang: Language)
      requires app.currentWorld.Some?
      ensures Valid() && this.app == app && this.lang == lang
      ensures world == app.currentWorld.value && !isLoading && inputText == ""
      ensures sendSnapshot == app.customWorlds
    {
      this.app := app;
      this.lang := lang;
      world := app.currentWorld.value;
      isLoading := false;
      inputText := "";
      sendSnapshot := app.customWorlds;
    }

    /** Typing in the input box. */
    method SetInputText(text: string)
      modifies this`inputText
      ensures inputText == text
    {
      inputText := text;
    }

    /** Submits `text` at time `now`, up to the call to the service. Blank text, or a turn
        already in flight, is rejected with no change at all. Otherwise the user's message is
        appended, the app saves that world, the input is cleared and the screen is busy. The
        list the app's auto-save saw before that save is kept for the rest of the handler. */
    method BeginSend(text: string, now: int) returns (sent: bool)
      requires Valid()
      modifies this`world, this`isLoading, this`inputText, this`sendSnapshot, app`currentWorld, app`customWorlds, app`archivesRecord
      ensures Valid()
      ensures sent <==> !IsBlank(text) && !old(isLoading)
      ensures !sent ==> unchanged(this) && unchanged(app)
      ensures world.id == old(world.id) && world.isCustom == old(world.isCustom)
      ensures sent ==> world == PendingWorld(old(world), text, now) && isLoading && inputText == ""
      ensures sent ==> |world.chatHistory| == |old(world.chatHistory)| + 1
      ensures sent ==> AutoSaved(world, old(app.customWorlds), old(app.archivesRecord), app.customWorlds, app.archivesRecord)
      ensures sent ==> sendSnapshot == old(app.customWorlds)
    {
      if IsBlank(text) || isLoading {
        return false;
      }
      isLoading := true;
      sendSnapshot := app.customWorlds;
      var pendingWorld := PendingWorld(world, text, now);
      app.HandleWorldUpdate(pendingWorld);
      world := pendingWorld;
      inputText := "";
      sent := true;
    }

    /** The service answered the turn in flight with `reply` at `answeredAt`; the screen
        saves the answered world at `now` into the app's current template list and is no
        longer busy. The answered world is built from the world as it was before the turn
        with the extended history, which is the world shown while the turn was in flight. */
    method FinishSend(reply: ServiceReply<TurnJson>, answeredAt: int, now: int)
      requires Valid() && isLoading
      modifies this`world, this`isLoading, app`currentWorld, app`customWorlds, app`archivesRecord
      ensures Valid() && !isLoading
      ensures world.id == old(world.id) && world.isCustom == old(world.isCustom)
      ensures |world.chatHistory| == |old(world.chatHistory)| + 1
      ensures world == AnsweredWorld(old(world), SendChatMessage(old(world), lang, reply, answeredAt), now)
      ensures AutoSaved(world, old(app.customWorlds), old(app.archivesRecord), app.customWorlds, app.archivesRecord)
    {
      var result := SendChatMessage(world, lang, reply, answeredAt);
      var answered := AnsweredWorld(world, result, now);
      app.HandleWorldUpdate(answered);
      world := answered;
      isLoading := false;
    }

    /** The same completion as written: the auto-save it calls is the one captured when the
        turn was sent, so a custom world is written back into the list as it was then and
        whatever happened to the list during the turn is overwritten. */
    method FinishSendAsWritten(reply: ServiceReply<TurnJson>, answeredAt: int, now: int)
      requires Valid() && isLoading
      modifies this`world, this`isLoading, app`currentWorld, app`customWorlds, app`archivesRecord
      ensures Valid() && !isLoading
      ensures world.id == old(world.id) && world.isCustom == old(world.isCustom)
      ensures |world.chatHistory| == |old(world.chatHistory)| + 1
      ensures world == AnsweredWorld(old(world), SendChatMessage(old(world), lang, reply, answeredAt), now)
      ensures world.isCustom ==> app.customWorlds == SaveStateInto(sendSnapshot, world)
                                 && app.archivesRecord == Parsed(app.customWorlds)
      ensures !world.isCustom ==> app.customWorlds == old(app.customWorlds) && app.archivesRecord == old(app.archivesRecord)
    {
      var result := SendChatMessage(world, lang, reply, answeredAt);
      var answered := AnsweredWorld(world, result, now);
      app.HandleStaleWorldUpdate(sendSnapshot, answered);
      world := answered;
      isLoading := false;
    }
  }

  /** As written, deleting a custom world's template while one of its turns is in flight
      does not last. The user goes back to the atlas and deletes the template; then the
      reply's save maps over the list the send saw, which still holds the template, and
      puts it back, now carrying the answered world, in the list and in the store. */
  method DeleteDuringTurnAsWritten(view: WorldView, reply: ServiceReply<TurnJson>, answeredAt: int, now: int)
    requires view.Valid() && view.isLoading && view.world.isCustom
    requires |view.sendSnapshot| > 0 && view.sendSnapshot[0].id == view.world.id
    modifies view`world, view`isLoading, view.app`view, view.app`currentWorld, view.app`customWorlds, view.app`archivesRecord
    ensures |view.app.customWorlds| > 0 && view.app.customWorlds[0] == view.sendSnapshot[0].(savedState := Some(view.world))
    ensures view.app.archivesRecord == Parsed(view.app.customWorlds)
  {
    view.app.Back();
    view.app.DeleteCustomWorld(view.world.id);
    view.FinishSendAsWritten(reply, answeredAt, now);
  }

  /** With the corrected completion the same deletion stands: no template with the world's
      id is left in the list, and the store holds that list. */
  method DeleteDuringTurn(view: WorldView, reply: ServiceReply<TurnJson>, answeredAt: int, now: int)
    requires view.Valid() && view.isLoading && view.world.isCustom
    requires |view.sendSnapshot| > 0 && view.sendSnapshot[0].id == view.world.id
    modifies view`world, view`isLoading, view.app`view, view.app`currentWorld, view.app`customWorlds, view.app`archivesRecord
    ensures forall i :: 0 <= i < |view.app.customWorlds| ==> view.app.customWorlds[i].id != view.world.id
    ensures view.app.archivesRecord == Parsed(view.app.customWorlds)
  {
    view.app.Back();
    view.app.DeleteCustomWorld(view.world.id);
    ghost var kept := view.app.customWorlds;
    forall i | 0 <= i < |kept| ensures kept[i].id != view.world.id {
      assert kept[i] in kept;
    }
    view.FinishSend(reply, answeredAt, now);
  }

  /** A whole turn through the screen: the history grows by two, the busy flag is raised for
      the call and lowered after it, and the world saved is `Turn` of the world before. A
      custom world ends up written back into its template once, as the answered world,
      and the store holds the whole list; a preset world leaves both alone. Blank text
      changes nothing. */
  method SubmitTurn(view: WorldView, text: string, reply: ServiceReply<TurnJson>, sentAt: int, answeredAt: int, now: int)
    returns (sent: bool)
    requires view.Valid() && !view.isLoading
    modifies view`world, view`isLoading, view`inputText, view`sendSnapshot, view.app`currentWorld, view.app`customWorlds, view.app`archivesRecord
    ensures view.Valid() && !view.isLoading
    ensures sent <==> !IsBlank(text)
    ensures !sent ==> unchanged(view) && unchanged(view.app)
    ensures sent ==> view.world == Turn(old(view.world), text, view.lang, reply, sentAt, answeredAt, now)
    ensures sent ==> |view.world.chatHistory| == |old(view.world.chatHistory)| + 2
    ensures sent ==> view.inputText == ""
    ensures sent ==> AutoSaved(view.world, old(view.app.customWorlds), old(view.app.archivesRecord),
                               view.app.customWorlds, view.app.archivesRecord)
  {
    sent := view.BeginSend(text, sentAt);
    if sent {
      view.FinishSendAsWritten(reply, answeredAt, now);
    }
  }

  /** As written, a turn's answer is lost when an upload is started while the turn is in
      flight. The user goes back to the atlas and uploads a file; the reply's save lands
      first, then the upload's completion prepends its template to the list the upload
      handler saw, which still holds the world as it was before the reply. */
  method UploadDuringTurnAsWritten(view: WorldView, dataUrl: string, reply: ServiceReply<TurnJson>,
                                   answeredAt: int, now: nat, generated: GeneratedWorld)
    requires view.Valid() && view.isLoading && view.world.isCustom
    requires view.app.Valid() && !view.app.isGenerating
    requires |view.app.customWorlds| > 0 && view.app.customWorlds[0].savedState == Some(view.world)
    modifies view`world, view`isLoading, view.app
    ensures view.app.customWorlds == [UploadedTemplate(dataUrl, generated, now)] + old(view.app.customWorlds)
    ensures view.app.archivesRecord == Parsed(view.app.customWorlds)
    ensures view.app.customWorlds[1].savedState != Some(view.world)
  {
    view.app.Back();
    var started := view.app.HandleUpload(dataUrl);
    view.FinishSendAsWritten(reply, answeredAt, now);
    view.app.FinishGeneration(Success(generated), now);
  }

  /** With the corrected completions the same upload keeps the answer: the template after the
      uploaded one holds the answered world. */
  method UploadDuringTurn(view: WorldView, dataUrl: string, reply: ServiceReply<TurnJson>,
                          answeredAt: int, now: nat, generated: GeneratedWorld)
    requires view.Valid() && view.isLoading && view.world.isCustom
    requires view.app.Valid() && !view.app.isGenerating
    requires |view.app.customWorlds| > 0 && view.app.customWorlds[0].id == view.world.id
    modifies view`world, view`isLoading, view.app
    ensures view.app.customWorlds == [UploadedTemplate(dataUrl, generated, now)] + SaveStateInto(old(view.app.customWorlds), view.world)
    ensures view.app.archivesRecord == Parsed(view.app.customWorlds)
    ensures view.app.customWorlds[1].savedState == Some(view.world)
  {
    view.app.Back();
    var started := view.app.HandleUpload(dataUrl);
    view.FinishSend(reply, answeredAt, now);
    view.app.FinishGenerationIntoCurrent(Success(generated), now);
  }
}

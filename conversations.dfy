/** `src/lib/state/conversations.svelte.ts`: one conversation's record and
  * its message edits (`CoolConversation`), and the per-project table of
  * conversations with the guard in front of generation (`Conversations`).
  * The database is given by the id it assigns to an added record; what is
  * written to it is returned as a `DbWrite`. The asynchronous reload in
  * `for` and the generation itself are not modelled. */
module Conversations {
  import opened Wrappers
  import opened Text

  /** `ConversationMessage`: a role and optional text; images are not
    * modelled. */
  datatype ChatMessage = ChatMessage(role: string, content: Option<string>)

  /** `ConversationFromDb`, the fields the core reads or writes. `data` is
    * the member that `update` adds by nesting its argument. */
  datatype Conversation = Conversation(
    id: Option<int>,
    projectId: string,
    modelId: string,
    messages: seq<ChatMessage>,
    provider: Option<string>,
    streaming: Option<bool>,
    data: Option<Patch>)

  /** The argument of `update`, a `Partial<ConversationFromDb>`: a whole
    * record (what `addMessage` and `updateMessage` pass) or only the
    * `messages` member (what `deleteMessages` passes). */
  datatype Patch = Whole(record: Conversation) | MessagesOnly(messages: seq<ChatMessage>)

  /** What `update` writes to the database. */
  datatype DbWrite = Added(record: Conversation) | Put(key: int, record: Conversation)

  /** `{ ...current, ...patch }`: the merge `update` evidently intends. */
  function Merged(current: Conversation, patch: Patch): (r: Conversation)
    ensures patch.MessagesOnly? ==> r == current.(messages := patch.messages)
    ensures patch.Whole? ==> r == patch.record
  {
    match patch
    case Whole(record) => record
    case MessagesOnly(messages) => current.(messages := messages)
  }

  /** `{ ...current, data: patch }`: what `update` builds as written. */
  function NestedAsWritten(current: Conversation, patch: Patch): (r: Conversation)
    ensures r.messages == current.messages && r.id == current.id && r.data == Some(patch)
  {
    current.(data := Some(patch))
  }

  /** `messages.slice(0, index)`, the message, then `messages.slice(index + 1)`. */
  function ReplacedAt(messages: seq<ChatMessage>, index: int, message: ChatMessage): (r: seq<ChatMessage>)
  {
    JsSlice(messages, 0, index) + [message] + JsSlice(messages, index + 1, |messages|)
  }

  /** Within range only position `index` changes; past the end the message
    * is appended. */
  lemma ReplacedAtIndex(messages: seq<ChatMessage>, index: int, message: ChatMessage)
    ensures 0 <= index < |messages| ==>
      |ReplacedAt(messages, index, message)| == |messages| && ReplacedAt(messages, index, message)[index] == message
      && forall k :: 0 <= k < |messages| && k != index ==> ReplacedAt(messages, index, message)[k] == messages[k]
    ensures index >= |messages| ==> ReplacedAt(messages, index, message) == messages + [message]
  {
    if 0 <= index < |messages| {
      JsSliceInRange(messages, 0, index);
      JsSliceInRange(messages, index + 1, |messages|);
    } else if index >= |messages| {
      assert JsSlice(messages, 0, index) == messages[0..|messages|] == messages;
      assert JsSlice(messages, index + 1, |messages|) == [];
    }
  }

  /** `CoolConversation`: the record held in `#data`. */
  class CoolConversation {
    var record: Conversation

    constructor(data: Conversation)
      ensures record == data
    {
      record := data;
    }

    /** `update(data)` as written: the argument is nested under `data` and
      * the record's own members stay as they were. A record new to the
      * database is added; the add writes the generated key into the clone,
      * so the clone that becomes `#data` carries it. */
    method UpdateAsWritten(patch: Patch, addedId: int) returns (write: DbWrite)
      modifies this
      ensures record == Stored(old(record), NestedAsWritten(old(record), patch), addedId)
      ensures write == WriteOf(old(record), NestedAsWritten(old(record), patch))
    {
      var cloned := NestedAsWritten(record, patch);
      if record.id.None? {
        write := Added(cloned);
        cloned := cloned.(id := Some(addedId));
      } else {
        write := Put(record.id.value, cloned);
      }
      record := cloned;
    }

    /** `update(data)` as evidently intended: the argument is merged into
      * the record, and a record new to the database keeps the id it got. */
    method Update(patch: Patch, addedId: int) returns (write: DbWrite)
      modifies this
      ensures record == Stored(old(record), Merged(old(record), patch), addedId)
      ensures write == WriteOf(old(record), Merged(old(record), patch))
    {
      var cloned := Merged(record, patch);
      if record.id.None? {
        write := Added(cloned);
        record := cloned.(id := Some(addedId));
      } else {
        write := Put(record.id.value, cloned);
        record := cloned;
      }
    }

    /** `addMessage(message)`: the message goes at the end, the rest of the
      * record is kept. */
    method AddMessage(message: ChatMessage, addedId: int) returns (write: DbWrite)
      modifies this
      ensures record.messages == old(record).messages + [message]
      ensures record == Stored(old(record), old(record).(messages := old(record).messages + [message]), addedId)
      ensures write == WriteOf(old(record), old(record).(messages := old(record).messages + [message]))
    {
      write := Update(Whole(record.(messages := record.messages + [message])), addedId);
    }

    /** `updateMessage({ index, message })`. */
    method UpdateMessage(index: int, message: ChatMessage, addedId: int) returns (write: DbWrite)
      modifies this
      ensures record.messages == ReplacedAt(old(record).messages, index, message)
      ensures record == Stored(old(record), old(record).(messages := ReplacedAt(old(record).messages, index, message)), addedId)
      ensures write == WriteOf(old(record), old(record).(messages := ReplacedAt(old(record).messages, index, message)))
    {
      write := Update(Whole(record.(messages := ReplacedAt(record.messages, index, message))), addedId);
    }

    /** `deleteMessages(from)`: keeps the first `from` messages. */
    method DeleteMessages(from: int, addedId: int) returns (write: DbWrite)
      modifies this
      ensures record.messages == JsSlice(old(record).messages, 0, from)
      ensures record == Stored(old(record), old(record).(messages := JsSlice(old(record).messages, 0, from)), addedId)
      ensures write == WriteOf(old(record), old(record).(messages := JsSlice(old(record).messages, 0, from)))
    {
      write := Update(MessagesOnly(JsSlice(record.messages, 0, from)), addedId);
    }
  }

  /** The record after an update: the merged one, with the id the database
    * assigned when it had none. */
  function Stored(current: Conversation, merged: Conversation, addedId: int): (r: Conversation)
    ensures r.messages == merged.messages
    ensures r.id == if current.id.None? then Some(addedId) else merged.id
  {
    if current.id.None? then merged.(id := Some(addedId)) else merged
  }

  /** The database write of an update: an add for a record without an id,
    * otherwise an update under its id. */
  function WriteOf(current: Conversation, merged: Conversation): (w: DbWrite)
    ensures w.record == merged
    ensures w.Added? <==> current.id.None?
  {
    if current.id.None? then Added(merged) else Put(current.id.value, merged)
  }

  /** With the update as written, adding a message never changes the
    * record's messages, where the merge appends it. */
  lemma AddMessageAsWrittenLosesMessage(c: Conversation, m: ChatMessage)
    ensures NestedAsWritten(c, Whole(c.(messages := c.messages + [m]))).messages == c.messages
    ensures Merged(c, Whole(c.(messages := c.messages + [m]))).messages == c.messages + [m]
    ensures c.messages != c.messages + [m]
  {
    assert |c.messages + [m]| == |c.messages| + 1;
  }

  // ----- the per-project table -----

  /** `models.trending[0]?.id ?? models.remote[0]?.id ?? emptyModel.id`. */
  function DefaultModelId(trending: seq<string>, remote: seq<string>): (id: string)
    ensures trending != [] ==> id == trending[0]
    ensures trending == [] && remote != [] ==> id == remote[0]
    ensures trending == [] && remote == [] ==> id == ""
  {
    if trending != [] then trending[0] else if remote != [] then remote[0] else ""
  }

  /** `getDefaultConversation(projectId)`: one empty user message, streaming. */
  function DefaultConversation(projectId: string, modelId: string): (c: Conversation)
    ensures c.id.None? && c.projectId == projectId && c.modelId == modelId
    ensures c.messages == [ChatMessage("user", Some(""))] && c.streaming == Some(true)
  {
    Conversation(None, projectId, modelId, [ChatMessage("user", Some(""))], None, Some(true), None)
  }

  /** `findIndex(c => c.id === id)`, or -1. */
  function FindIndex(list: seq<Conversation>, id: Option<int>): (i: int)
    ensures -1 <= i < |list|
    ensures i >= 0 ==> list[i].id == id && forall k :: 0 <= k < i ==> list[k].id != id
    ensures i == -1 ==> forall k :: 0 <= k < |list| ==> list[k].id != id
  {
    if list == [] then -1
    else if list[0].id == id then 0
    else
      var i := FindIndex(list[1..], id);
      if i == -1 then -1 else i + 1
  }

  /** `prev.filter(c => c.id != id)`. */
  function Without(list: seq<Conversation>, id: int): (r: seq<Conversation>)
    ensures forall c :: c in r <==> c in list && c.id != Some(id)
  {
    if list == [] then []
    else (if list[0].id != Some(id) then [list[0]] else []) + Without(list[1..], id)
  }

  /** Which conversations a generation request names. */
  /** A single `CoolConversation` is given with its position `at` among
    * the active conversations. */
  datatype Selection = Left | Right | Both | Single(c: Conversation, at: int)

  /** What `genNextMessages` does: open the token modal, show the
    * alternation error, or generate for the selected conversations. */
  datatype Decision = ShowTokenModal | AlternationError(description: string) | Generate(selected: seq<Conversation>)

  const AlternationMessage: string := "Messages must alternate between user/assistant roles."

  function SidePrefix(side: int): string
  {
    "Error on " + (if side == 0 then "left" else "right") + " conversation. "
  }

  /** The selected conversations, each with its position among the active
    * ones. */
  function Selected(active: seq<Conversation>, sel: Selection): (r: seq<(int, Conversation)>)
    ensures sel.Both? ==> |r| == |active| && forall k :: 0 <= k < |r| ==> r[k] == (k, active[k])
    ensures sel.Left? ==> r == if |active| > 0 then [(0, active[0])] else []
    ensures sel.Right? ==> r == if |active| > 1 then [(1, active[1])] else []
    ensures sel.Single? ==> r == [(sel.at, sel.c)]
  {
    match sel
    case Both => Indexed(active, 0)
    case Left => if |active| > 0 then [(0, active[0])] else []
    case Right => if |active| > 1 then [(1, active[1])] else []
    case Single(c, at) => [(at, c)]
  }

  function Indexed(list: seq<Conversation>, from: int): (r: seq<(int, Conversation)>)
    ensures |r| == |list| && forall k :: 0 <= k < |r| ==> r[k] == (from + k, list[k])
  {
    if list == [] then [] else [(from, list[0])] + Indexed(list[1..], from + 1)
  }

  /** `messages.at(-1)?.role === "assistant"`. */
  predicate EndsWithAssistant(c: Conversation)
  {
    c.messages != [] && c.messages[|c.messages| - 1].role == "assistant"
  }

  /** The index in `selected` of the first conversation ending with an
    * assistant message. */
  function FirstBlocked(selected: seq<(int, Conversation)>): (r: Option<nat>)
    ensures r.Some? ==> r.value < |selected| && EndsWithAssistant(selected[r.value].1)
    ensures r.Some? ==> forall k :: 0 <= k < r.value ==> !EndsWithAssistant(selected[k].1)
    ensures r.None? ==> forall k :: 0 <= k < |selected| ==> !EndsWithAssistant(selected[k].1)
  {
    if selected == [] then None
    else if EndsWithAssistant(selected[0].1) then Some(0)
    else
      var r := FirstBlocked(selected[1..]);
      if r.None? then None else Some(r.value + 1)
  }

  function Conversations(selected: seq<(int, Conversation)>): (r: seq<Conversation>)
    ensures |r| == |selected| && forall k :: 0 <= k < |r| ==> r[k] == selected[k].1
  {
    if selected == [] then [] else [selected[0].1] + Conversations(selected[1..])
  }

  /** The guard of `genNextMessages` as written: the side named in the
    * error is the index in the filtered list, not among the active ones. */
  function DecideAsWritten(active: seq<Conversation>, sel: Selection, token: string): Decision
  {
    if token == [] then ShowTokenModal
    else
      var selected := Selected(active, sel);
      match FirstBlocked(selected)
      case Some(idx) => AlternationError((if |active| == 2 then SidePrefix(idx) else "") + AlternationMessage)
      case None => Generate(Conversations(selected))
  }

  /** The guard as evidently intended: the error names the side of the
    * blocked conversation. */
  function Decide(active: seq<Conversation>, sel: Selection, token: string): Decision
  {
    if token == [] then ShowTokenModal
    else
      var selected := Selected(active, sel);
      match FirstBlocked(selected)
      case Some(idx) => AlternationError((if |active| == 2 then SidePrefix(selected[idx].0) else "") + AlternationMessage)
      case None => Generate(Conversations(selected))
  }

  /** Generation runs only with a token and only when no selected
    * conversation ends with an assistant message; it then covers exactly
    * the selection. */
  lemma DecideGuards(active: seq<Conversation>, sel: Selection, token: string)
    ensures Decide(active, sel, token).ShowTokenModal? <==> token == []
    ensures Decide(active, sel, token).Generate? <==>
      token != [] && forall k :: 0 <= k < |Selected(active, sel)| ==> !EndsWithAssistant(Selected(active, sel)[k].1)
    ensures Decide(active, sel, token).Generate? ==> Decide(active, sel, token).selected == Conversations(Selected(active, sel))
  {
  }

  /** With two active conversations, a blocked right one selected alone
    * (by side or as the conversation itself) is reported as the left one
    * as written, and as the right one by `Decide`. */
  lemma RightReportedAsLeft(active: seq<Conversation>, token: string)
    requires |active| == 2 && token != [] && EndsWithAssistant(active[1])
    ensures DecideAsWritten(active, Right, token) == AlternationError(SidePrefix(0) + AlternationMessage)
    ensures Decide(active, Right, token) == AlternationError(SidePrefix(1) + AlternationMessage)
    ensures DecideAsWritten(active, Single(active[1], 1), token) == AlternationError(SidePrefix(0) + AlternationMessage)
    ensures Decide(active, Single(active[1], 1), token) == AlternationError(SidePrefix(1) + AlternationMessage)
    ensures SidePrefix(0) != SidePrefix(1)
  {
    assert FirstBlocked(Selected(active, Right)) == Some(0);
    assert FirstBlocked(Selected(active, Single(active[1], 1))) == Some(0);
    assert SidePrefix(0)[9] == 'l' && SidePrefix(1)[9] == 'r';
  }

  /** With two active conversations, the error names the side of the
    * blocked conversation: `left` for the first, `right` for the second. */
  lemma DecideNamesSide(active: seq<Conversation>, sel: Selection, token: string)
    requires |active| == 2 && token != []
    requires sel.Single? ==> 0 <= sel.at < 2 && active[sel.at] == sel.c
    requires Decide(active, sel, token).AlternationError?
    ensures var selected := Selected(active, sel);
      exists k :: 0 <= k < |selected| && EndsWithAssistant(active[selected[k].0])
        && Decide(active, sel, token).description == SidePrefix(selected[k].0) + AlternationMessage
  {
    var selected := Selected(active, sel);
    var idx := FirstBlocked(selected).value;
    assert EndsWithAssistant(active[selected[idx].0]);
  }

  /** The module-level `conversations`: the stored lists by project id. */
  class ConversationTable {
    var byProject: map<string, seq<Conversation>>

    constructor()
      ensures byProject == map[]
    {
      byProject := map[];
    }

    /** `for(projectId)`: the stored list, or one default conversation when
      * there is none. */
    function For(projectId: string, defaultModelId: string): (r: seq<Conversation>)
      reads this
      ensures projectId in byProject && byProject[projectId] != [] ==> r == byProject[projectId]
      ensures projectId !in byProject || byProject[projectId] == [] ==> r == [DefaultConversation(projectId, defaultModelId)]
    {
      if projectId in byProject && byProject[projectId] != [] then byProject[projectId]
      else [DefaultConversation(projectId, defaultModelId)]
    }

    /** `create({ projectId, modelId })`: a default conversation, with the
      * given model when there is one, is added and appended. */
    method Create(projectId: string, modelId: Option<string>, defaultModelId: string, addedId: int) returns (write: DbWrite)
      modifies this
      ensures var conv := DefaultConversation(projectId, if modelId.Some? && modelId.value != [] then modelId.value else defaultModelId);
        write == Added(conv)
        && byProject == old(byProject)[projectId := (if projectId in old(byProject) then old(byProject)[projectId] else []) + [conv.(id := Some(addedId))]]
    {
      var conv := DefaultConversation(projectId, defaultModelId);
      if modelId.Some? && modelId.value != [] {
        conv := conv.(modelId := modelId.value);
      }
      write := Added(conv);
      var prev := if projectId in byProject then byProject[projectId] else [];
      byProject := byProject[projectId := prev + [conv.(id := Some(addedId))]];
    }

    /** `update(conversation)`: replaces the stored conversation with the
      * same id in the record's project; an unknown id changes nothing. */
    method Update(c: Conversation, addedId: int) returns (write: Option<DbWrite>)
      modifies this
      ensures var list := if c.projectId in old(byProject) then old(byProject)[c.projectId] else [];
        var i := FindIndex(list, c.id);
        if i == -1 then write.None? && byProject == old(byProject)
        else
          var id := if c.id.None? then addedId else c.id.value;
          write == Some(if c.id.None? then Added(c) else Put(id, c))
          && byProject == old(byProject)[c.projectId := list[..i] + [c.(id := Some(id))] + list[i + 1..]]
    {
      var list := if c.projectId in byProject then byProject[c.projectId] else [];
      var i := FindIndex(list, c.id);
      if i == -1 {
        return None;
      }
      var id: int;
      if c.id.None? {
        id := addedId;
        write := Some(Added(c));
      } else {
        id := c.id.value;
        write := Some(Put(id, c));
      }
      byProject := byProject[c.projectId := list[..i] + [c.(id := Some(id))] + list[i + 1..]];
    }

    /** `delete(conversation)`: nothing without a (truthy) id; otherwise
      * every conversation of the project with that id is dropped. */
    method Delete(c: Conversation) returns (deleted: Option<int>)
      modifies this
      ensures c.id.None? || c.id == Some(0) ==> deleted.None? && byProject == old(byProject)
      ensures c.id.Some? && c.id != Some(0) ==> deleted == c.id
      ensures c.id.Some? && c.id != Some(0) ==>
        byProject == old(byProject)[c.projectId := Without(if c.projectId in old(byProject) then old(byProject)[c.projectId] else [], c.id.value)]
    {
      if c.id.None? || c.id == Some(0) {
        return None;
      }
      var prev := if c.projectId in byProject then byProject[c.projectId] else [];
      byProject := byProject[c.projectId := Without(prev, c.id.value)];
      return c.id;
    }

    /** `genNextMessages(conv)` over the active project's conversations
      * `active`, with the side in the error corrected. */
    method GenNextMessages(active: seq<Conversation>, sel: Selection, token: string) returns (d: Decision)
      ensures d == Decide(active, sel, token)
    {
      if token == [] {
        return ShowTokenModal;
      }
      var selected := Selected(active, sel);
      for idx := 0 to |selected|
        invariant forall k :: 0 <= k < idx ==> !EndsWithAssistant(selected[k].1)
      {
        var conversation := selected[idx].1;
        if !EndsWithAssistant(conversation) {
          continue;
        }
        var prefix := "";
        if |active| == 2 {
          prefix := SidePrefix(selected[idx].0);
        }
        FirstBlockedAt(selected, idx);
        return AlternationError(prefix + AlternationMessage);
      }
      return Generate(Conversations(selected));
    }
  }

  lemma FirstBlockedAt(selected: seq<(int, Conversation)>, idx: nat)
    requires idx < |selected| && EndsWithAssistant(selected[idx].1)
    requires forall k :: 0 <= k < idx ==> !EndsWithAssistant(selected[k].1)
    ensures FirstBlocked(selected) == Some(idx)
  {
    var r := FirstBlocked(selected);
    assert r.Some?;
    if r.value < idx {
    } else if r.value > idx {
    }
  }
}

/**
 * The TaskList component: the toggle and edit handlers that issue updates to
 * the store, the completion webhook, and the list of on-screen notifications.
 */
module TaskList {
  import opened Wrappers
  import opened Values
  import opened Text
  import opened Arrays
  import App

  const WebhookUrl: string := "https://webhook.site/unique-id"
  const WebhookTimeoutMs: nat := 5000
  const CompletedAction: string := "task_completed"
  const UpdatedMessage: string := "Task updated successfully"

  /** The notification type: 'info', 'success' or 'error'. */
  datatype Kind = Info | Success | Error

  datatype Notification = Notification(id: int, message: string, kind: Kind)

  /** The edit form's two inputs; they hold whatever the task had until the user types. */
  datatype EditForm = EditForm(name: Value, description: Value)

  const BlankForm: EditForm := EditForm(Str(""), Str(""))

  /** One call of the store's `updateTask(taskId, changes)`. */
  datatype TaskUpdate = TaskUpdate(taskId: Value, changes: Fields)

  /** One `axios.post(webhookUrl, payload, { timeout })` call. */
  datatype WebhookPost = WebhookPost(url: string, body: WebhookPayload, timeoutMs: nat)

  /** The JSON body posted to the webhook when a task is completed. */
  datatype WebhookPayload = WebhookPayload(
    taskId: Value, taskName: Value, taskDescription: Value, timeframe: Value,
    completedAt: string, action: string)

  /** The payload `sendWebhook` builds: the task's id, name, description and timeframe, the time, and the action tag. */
  function PayloadFor(task: App.Task, completedAt: string): (p: WebhookPayload)
    ensures p.taskId == Get(task, "id") && p.taskName == Get(task, "name")
    ensures p.taskDescription == Get(task, "description") && p.timeframe == Get(task, "timeframe")
    ensures p.completedAt == completedAt && p.action == CompletedAction
  {
    WebhookPayload(Get(task, "id"), Get(task, "name"), Get(task, "description"), Get(task, "timeframe"),
                   completedAt, CompletedAction)
  }

  /** The update a toggle issues: only `completed`, set to the negation of the task's current status. */
  function ToggleUpdate(task: App.Task): (u: TaskUpdate)
    ensures u.taskId == Get(task, "id")
    ensures u.changes.Keys == {"completed"}
    ensures u.changes["completed"] == Bool(!App.IsCompleted(task))
  {
    TaskUpdate(Get(task, "id"), map["completed" := Bool(!App.IsCompleted(task))])
  }

  /**
   * Applied to the store, a toggle flips the completion of the toggled task
   * and leaves every other property of it as it was.
   */
  lemma ToggleFlipsCompletion(prev: seq<App.Task>, i: nat, key: string)
    requires i < |prev|
    ensures var u := ToggleUpdate(prev[i]);
            var next := App.UpdateTask(prev, u.taskId, u.changes);
            App.IsCompleted(next[i]) == !App.IsCompleted(prev[i]) &&
            (key != "completed" ==> Get(next[i], key) == Get(prev[i], key))
  {
  }

  /** Toggling a task with a boolean status twice gives back the very same task. */
  lemma ToggleTwiceRestores(task: App.Task)
    requires "completed" in task && task["completed"].Bool?
    ensures var once := Merge(task, ToggleUpdate(task).changes);
            Merge(once, ToggleUpdate(once).changes) == task
  {
  }

  /** Completing a not-yet-completed task whose id is unique raises the completed count by one. */
  lemma CompletingRaisesCount(prev: seq<App.Task>, i: nat)
    requires i < |prev| && !App.IsCompleted(prev[i])
    requires forall j :: 0 <= j < |prev| && j != i ==> !App.HasId(prev[j], Get(prev[i], "id"))
    ensures var u := ToggleUpdate(prev[i]);
            App.CompletedCount(App.UpdateTask(prev, u.taskId, u.changes)) == App.CompletedCount(prev) + 1
  {
    var u := ToggleUpdate(prev[i]);
    App.CompletingOneTaskCountsOnce(prev, i, u.changes);
  }

  /** `Task "<name>" completion sent to webhook`: the name's text sits between the two quotes. */
  function SentMessage(task: App.Task): (m: string)
    ensures var name := Display(Get(task, "name"));
            |m| == 6 + |name| + 28 && m[..6] == "Task \"" &&
            m[6..6 + |name|] == name && m[6 + |name|..] == "\" completion sent to webhook"
  {
    "Task \"" + Display(Get(task, "name")) + "\" completion sent to webhook"
  }

  /** `Failed to send webhook for "<name>"`: the name's text sits between the closing pair of quotes. */
  function FailedMessage(task: App.Task): (m: string)
    ensures var name := Display(Get(task, "name"));
            |m| == 28 + |name| + 1 && m[..28] == "Failed to send webhook for \"" &&
            m[28..28 + |name|] == name && m[28 + |name|] == '"'
  {
    "Failed to send webhook for \"" + Display(Get(task, "name")) + "\""
  }

  /** `notifications.filter(n => n.id !== id)`: drops every notification with that id, keeping the rest in order. */
  function WithoutNotification(notes: seq<Notification>, id: int): (r: seq<Notification>)
    ensures forall i :: 0 <= i < |r| ==> r[i].id != id && r[i] in notes
    ensures forall i :: 0 <= i < |notes| && notes[i].id != id ==> notes[i] in r
    ensures IsSubsequence(r, notes)
  {
    var keep := (n: Notification) => n.id != id;
    FilterIsSubsequence(notes, keep);
    Filter(notes, keep)
  }

  /** Removing from a concatenation removes from each part in place, so kept duplicates all stay. */
  lemma WithoutNotificationConcat(a: seq<Notification>, b: seq<Notification>, id: int)
    ensures WithoutNotification(a + b, id) == WithoutNotification(a, id) + WithoutNotification(b, id)
  {
    FilterConcat(a, b, (n: Notification) => n.id != id);
  }

  /** Removing an id no notification has changes nothing; removing it twice is removing it once. */
  lemma WithoutNotificationStable(notes: seq<Notification>, id: int)
    ensures (forall i :: 0 <= i < |notes| ==> notes[i].id != id) ==> WithoutNotification(notes, id) == notes
    ensures WithoutNotification(WithoutNotification(notes, id), id) == WithoutNotification(notes, id)
  {
    FilterIdempotent(notes, (n: Notification) => n.id != id);
    if forall i :: 0 <= i < |notes| ==> notes[i].id != id {
      FilterKeepsAll(notes, (n: Notification) => n.id != id);
    }
  }

  /**
   * The changes `saveEdit` sends: the trimmed name and description, provided both
   * inputs hold strings that are non-empty once trimmed. (A non-string input makes
   * `.trim()` throw before anything happens, which ends the same way.)
   */
  function SaveChanges(form: EditForm): (r: Option<Fields>)
    ensures r.Some? <==> form.name.Str? && Trim(form.name.s) != "" &&
                         form.description.Str? && Trim(form.description.s) != ""
    ensures r.Some? ==> r.value.Keys == {"name", "description"} &&
                        r.value["name"] == Str(Trim(form.name.s)) &&
                        r.value["description"] == Str(Trim(form.description.s))
  {
    if form.name.Str? && Trim(form.name.s) != "" && form.description.Str? && Trim(form.description.s) != "" then
      Some(map["name" := Str(Trim(form.name.s)), "description" := Str(Trim(form.description.s))])
    else
      None
  }

  /** A saved name or description never starts or ends with white space. */
  lemma SavedTextIsTrimmed(form: EditForm)
    requires SaveChanges(form).Some?
    ensures var n := SaveChanges(form).value["name"].s;
            n != [] && !IsWhitespace(n[0]) && !IsWhitespace(n[|n| - 1])
    ensures var d := SaveChanges(form).value["description"].s;
            d != [] && !IsWhitespace(d[0]) && !IsWhitespace(d[|d| - 1])
  {
  }

  /** Saving again the texts a save just sent issues the very same changes. */
  lemma ResaveIsStable(form: EditForm)
    requires SaveChanges(form).Some?
    ensures var c := SaveChanges(form).value;
            SaveChanges(EditForm(c["name"], c["description"])) == Some(c)
  {
    TrimIdempotent(form.name.s);
    TrimIdempotent(form.description.s);
  }

  /** The state of one TaskList component. */
  class Component {
    /** The id of the task being edited, `null` when none is. */
    var editingTask: Value
    var editForm: EditForm
    var notifications: seq<Notification>

    constructor ()
      ensures editingTask == Null && editForm == BlankForm && notifications == []
    {
      editingTask, editForm, notifications := Null, BlankForm, [];
    }

    /** `showNotification`: appends one notification at the end; `id` is the clock reading. */
    method ShowNotification(message: string, kind: Kind, id: int)
      modifies this`notifications
      ensures notifications == old(notifications) + [Notification(id, message, kind)]
    {
      notifications := notifications + [Notification(id, message, kind)];
    }

    /** `removeNotification`, also what the five-second timer does when it fires. */
    method RemoveNotification(id: int)
      modifies this`notifications
      ensures notifications == WithoutNotification(old(notifications), id)
    {
      notifications := WithoutNotification(notifications, id);
    }

    /**
     * `sendWebhook`: builds the payload, posts it (`delivered` is how the post
     * ended) and reports the outcome with one notification. No task update is issued.
     */
    method SendWebhook(task: App.Task, completedAt: string, delivered: bool, noteId: int)
      returns (post: WebhookPost)
      modifies this`notifications
      ensures post == WebhookPost(WebhookUrl, PayloadFor(task, completedAt), WebhookTimeoutMs)
      ensures notifications == old(notifications) +
                [if delivered then Notification(noteId, SentMessage(task), Success)
                 else Notification(noteId, FailedMessage(task), Error)]
    {
      var payload := PayloadFor(task, completedAt);
      post := WebhookPost(WebhookUrl, payload, WebhookTimeoutMs);
      if delivered {
        ShowNotification(SentMessage(task), Success, noteId);
      } else {
        ShowNotification(FailedMessage(task), Error, noteId);
      }
    }

    /**
     * `handleToggleComplete`: always issues the toggle update first; posts the
     * webhook only when the task becomes completed. The update does not depend
     * on how the webhook ends, so a failed post rolls nothing back.
     */
    method HandleToggleComplete(task: App.Task, completedAt: string, delivered: bool, noteId: int)
      returns (update: TaskUpdate, sent: Option<WebhookPost>)
      modifies this`notifications
      ensures update == ToggleUpdate(task)
      ensures sent.Some? <==> !App.IsCompleted(task)
      ensures sent.Some? ==>
                && sent.value == WebhookPost(WebhookUrl, PayloadFor(task, completedAt), WebhookTimeoutMs)
                && notifications == old(notifications) +
                     [if delivered then Notification(noteId, SentMessage(task), Success)
                      else Notification(noteId, FailedMessage(task), Error)]
      ensures sent.None? ==> notifications == old(notifications)
    {
      var newCompletedStatus := !App.IsCompleted(task);
      update := TaskUpdate(Get(task, "id"), map["completed" := Bool(newCompletedStatus)]);
      sent := None;
      if newCompletedStatus {
        var completedTask := Merge(task, map["completed" := Bool(newCompletedStatus)]);
        var post := SendWebhook(completedTask, completedAt, delivered, noteId);
        sent := Some(post);
      }
    }

    /** `startEditing`: remembers the task's id and copies its name and description into the form. */
    method StartEditing(task: App.Task)
      modifies this`editingTask, this`editForm
      ensures editingTask == Get(task, "id")
      ensures editForm == EditForm(Get(task, "name"), Get(task, "description"))
    {
      editingTask := Get(task, "id");
      editForm := EditForm(Get(task, "name"), Get(task, "description"));
    }

    /** `cancelEditing`: back to the initial editing state. */
    method CancelEditing()
      modifies this`editingTask, this`editForm
      ensures editingTask == Null && editForm == BlankForm
    {
      editingTask := Null;
      editForm := BlankForm;
    }

    /** Typing in the name input. */
    method EditName(text: string)
      modifies this`editForm
      ensures editForm == old(editForm).(name := Str(text))
    {
      editForm := editForm.(name := Str(text));
    }

    /** Typing in the description input. */
    method EditDescription(text: string)
      modifies this`editForm
      ensures editForm == old(editForm).(description := Str(text))
    {
      editForm := editForm.(description := Str(text));
    }

    /**
     * `saveEdit`: when both inputs are non-empty once trimmed, issues the update
     * with the trimmed texts for the task being edited, leaves editing and shows
     * one success notification; otherwise changes nothing.
     */
    method SaveEdit(noteId: int) returns (update: Option<TaskUpdate>)
      modifies this`editingTask, this`editForm, this`notifications
      ensures update.Some? <==> SaveChanges(old(editForm)).Some?
      ensures update.Some? ==>
                update.value == TaskUpdate(old(editingTask), SaveChanges(old(editForm)).value) &&
                editingTask == Null && editForm == BlankForm &&
                notifications == old(notifications) + [Notification(noteId, UpdatedMessage, Success)]
      ensures update.None? ==>
                editingTask == old(editingTask) && editForm == old(editForm) && notifications == old(notifications)
    {
      var changes := SaveChanges(editForm);
      update := None;
      if changes.Some? {
        update := Some(TaskUpdate(editingTask, changes.value));
        CancelEditing();
        ShowNotification(UpdatedMessage, Success, noteId);
      }
    }
  }
}

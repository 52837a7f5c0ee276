/**
 * The scheduler's diagnostic line: gated by the logging option, prefixed with the task id
 * when one is set.  Writing the line to the console is left to the caller.
 */
module Logging {
  import opened Wrappers

  /** JavaScript truthiness of a stored task id: present and not the empty string. */
  predicate HasTaskId(taskId: Option<string>)
  {
    taskId.Some? && taskId.value != ""
  }

  function Prefix(id: string): string
  {
    "[Task: " + id + "] "
  }

  /** The constructor's `options.taskId || null`: an empty id is stored as null. */
  function StoredTaskId(given: Option<string>): (r: Option<string>)
    ensures HasTaskId(r) <==> HasTaskId(given)
    ensures r.Some? ==> r == given
    ensures r.None? <==> !HasTaskId(given)
  {
    if given == Some("") then None else given
  }

  /** log(message): the console line it writes, or None when logging is disabled. */
  function LogLine(loggingEnabled: bool, taskId: Option<string>, message: string): (line: Option<string>)
    ensures line.Some? <==> loggingEnabled
    ensures line.Some? && !HasTaskId(taskId) ==> line.value == message
    ensures line.Some? && HasTaskId(taskId) ==>
      && line.value == Prefix(taskId.value) + message
      && line.value != message
  {
    if !loggingEnabled then None
    else if HasTaskId(taskId) then Some(Prefix(taskId.value) + message)
    else Some(message)
  }

  /** Two tasks with different ids never write the same line for the same message. */
  lemma {:induction false} PrefixIdentifiesTask(a: string, b: string, message: string)
    requires Prefix(a) + message == Prefix(b) + message
    ensures a == b
  {
    var line := Prefix(a) + message;
    assert |a| == |b|;
    assert line[7..7 + |a|] == a;
    assert line[7..7 + |b|] == b;
  }
}

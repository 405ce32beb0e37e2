/**
  How the shell supervisor and the net handler meet: the pipe path the
  supervisor announces in its status is the path the renderer asks the net
  handler to connect to.
 */
module Wiring {
  import opened Wrappers
  import opened Text
  import ShellModel
  import Net

  /** The pipe path of the session started with `guid`. */
  function AnnouncedPath(guid: string): string {
    ShellModel.PipePathPrefix + ShellModel.PipeNamePrefix + guid
  }

  /** The announced path is accepted exactly when the guid is a nonempty run of `[a-z0-9-]`. */
  lemma AnnouncedPathAllowed(guid: string)
    ensures Net.AllowList(AnnouncedPath(guid)) <==>
      |guid| >= 1 && forall k :: 0 <= k < |guid| ==> Net.IsPipeNameChar(guid[k])
  {
    var path := AnnouncedPath(guid);
    assert path == Net.AllowedPrefix + guid;
    assert Text.StartsWith(path, Net.AllowedPrefix);
    assert forall k :: 0 <= k < |guid| ==> path[|Net.AllowedPrefix| + k] == guid[k];
    if forall k :: |Net.AllowedPrefix| <= k < |path| ==> Net.IsPipeNameChar(path[k]) {
      forall k | 0 <= k < |guid| ensures Net.IsPipeNameChar(guid[k]) {
        assert path[|Net.AllowedPrefix| + k] == guid[k];
      }
    }
  }

  /**
    Once the pipe server of a session started with `guid` is ready, the status
    names its pipe, and the net handler accepts that path when the guid is
    made of `[a-z0-9-]`.
   */
  lemma StatusPipeConnectable(s: ShellModel.Shell, guid: string, c9args: Option<string>)
    requires !s.running
    requires |guid| >= 1 && forall k :: 0 <= k < |guid| ==> Net.IsPipeNameChar(guid[k])
    ensures var ready := ShellModel.StartShell(s, guid, c9args).(pipeServerAvailable := true);
      var status := ShellModel.StatusOf(ready);
      && status.data.Some? && status.data.value.pipeName == Some(AnnouncedPath(guid))
      && Net.AllowList(status.data.value.pipeName.value)
  {
    var started := ShellModel.StartShell(s, guid, c9args);
    ShellModel.StartShellResets(s, guid, c9args);
    ShellModel.StatusReflectsFields(started.(pipeServerAvailable := true));
    AnnouncedPathAllowed(guid);
    assert ShellModel.PipePathPrefix + (ShellModel.PipeNamePrefix + guid) == AnnouncedPath(guid);
  }

  /** A path outside the pipe namespace, and an upper-case pipe name such as `c9Controller`, are refused. */
  lemma UpperCasePipeRefused()
    ensures !Net.AllowList("/some/thing")
    ensures !Net.AllowList("\\\\?\\pipe\\c9Controller")
    ensures !Net.AllowList(AnnouncedPath("ABC"))
    ensures !Net.AllowList(AnnouncedPath(""))
    ensures Net.AllowList(AnnouncedPath("0f3a-77"))
  {
    var p := "\\\\?\\pipe\\c9Controller";
    assert p[|Net.AllowedPrefix| - 1] != Net.AllowedPrefix[|Net.AllowedPrefix| - 1];
    AnnouncedPathAllowed("ABC");
    assert !Net.IsPipeNameChar("ABC"[0]);
    AnnouncedPathAllowed("");
    AnnouncedPathAllowed("0f3a-77");
  }
}

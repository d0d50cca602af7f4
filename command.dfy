/** The plugin's registered parameter table and the generic control command (`input_cmd`). */
module Command {
  import opened Common
  import opened Controls

  /** The `in_cmd_group` of controls that are not V4L2 controls. */
  const IN_CMD_GENERIC: int := 0

  /** An entry of the host's `in_parameters` table: the control id, its group and its name
      (the V4L2 control type and ranges are never read by the dispatch). */
  datatype Parameter = Parameter(id: nat, group: int, name: string)

  /** The one control the plugin registers: a button that triggers autofocus. */
  const AfTriggerParameter: Parameter := Parameter(1, IN_CMD_GENERIC, "AfTrigger")

  /** Some registered parameter has this id in the generic group. */
  predicate Registered(parameters: seq<Parameter>, controlId: nat) {
    exists i :: 0 <= i < |parameters| && parameters[i].id == controlId && parameters[i].group == IN_CMD_GENERIC
  }

  /** After initialisation the table holds only AfTrigger, so id 1 and no other id is
      dispatched. */
  lemma {:induction false} OnlyAfTriggerRegistered(controlId: nat)
    ensures Registered([AfTriggerParameter], controlId) <==> controlId == 1
  {
    if controlId == 1 {
      assert [AfTriggerParameter][0] == AfTriggerParameter;
    }
  }

  /** `input_cmd`: a generic command succeeds (0) exactly when a matching generic parameter is
      registered, and then hands the camera a control list (AfMode = Auto and AfTrigger = Start
      for id 1, nothing for any other id); an unmatched generic command fails (-1); any other
      command type succeeds without effect. `sent` is the list passed to `camera.set`. */
  method InputCmd(parameters: seq<Parameter>, controlId: nat, typecode: nat, value: int)
    returns (ret: int, sent: Option<ControlList>)
    ensures typecode != IN_CMD_GENERIC ==> ret == 0 && sent == None
    ensures typecode == IN_CMD_GENERIC ==> (ret == 0 <==> Registered(parameters, controlId))
    ensures typecode == IN_CMD_GENERIC ==> (ret == -1 <==> !Registered(parameters, controlId))
    ensures sent.Some? <==> typecode == IN_CMD_GENERIC && Registered(parameters, controlId)
    ensures sent.Some? && controlId == 1 ==>
              sent.value == NoControls.(afMode := Some(AfModeAuto), afTrigger := Some(AfTriggerStart))
    ensures sent.Some? && controlId != 1 ==> sent.value == NoControls
  {
    if typecode == IN_CMD_GENERIC {
      var i := 0;
      while i < |parameters|
        invariant 0 <= i <= |parameters|
        invariant forall j :: 0 <= j < i ==> !(parameters[j].id == controlId && parameters[j].group == IN_CMD_GENERIC)
      {
        if parameters[i].id == controlId && parameters[i].group == IN_CMD_GENERIC {
          var controls := NoControls;
          if controlId == 1 {
            controls := controls.(afMode := Some(AfModeAuto));
            controls := controls.(afTrigger := Some(AfTriggerStart));
          }
          return 0, Some(controls);
        }
        i := i + 1;
      }
      return -1, None;
    }
    return 0, None;
  }
}

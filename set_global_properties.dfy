/**
 * SetGlobalProperties: a request that is validated by a fixed sequence of
 * early exits, records VR help and prompts in the application, always asks
 * the UI to set the global properties and asks TTS only when a prompt is
 * present; each UI or TTS reply is answered to the application at once from
 * the two result slots.
 */
module SetGlobalProperties {
  import opened Wrappers
  import opened Apps

  /** The request's msg_params: the seven optional parameters. */
  datatype Params = Params(
    helpPrompt: Option<Prompt>,
    timeoutPrompt: Option<Prompt>,
    vrHelpTitle: Option<string>,
    vrHelp: Option<seq<VrHelpItem>>,
    menuTitle: Option<string>,
    menuIcon: bool,           // presence only: the image is not modelled
    keyboardProperties: bool) // presence only: the properties are not modelled

  /** The HMI function a reply belongs to. */
  datatype FunctionId = UiSetGlobalProperties | TtsSetGlobalProperties | OtherFunction(id: int)

  /** An HMI reply delivered to the request: its function and its result code. */
  datatype HmiEvent = HmiEvent(id: FunctionId, code: HmiCode)

  /** The HMI requests the command emits, with the parameters it fills in. */
  datatype HmiRequest =
    | UiRequest(vrHelpTitle: string, vrHelp: seq<VrHelpItem>, appId: nat,
                menuTitle: Option<string>, menuIcon: bool, keyboardProperties: bool)
    | TtsRequest(helpPrompt: Option<Prompt>, timeoutPrompt: Option<Prompt>, appId: nat)

  /** At least one of the seven optional parameters is present. */
  function ValidateConditionalMandatoryParameters(p: Params): (present: bool)
    ensures !present <==> p == Params(None, None, None, None, None, false, false)
  {
    || p.helpPrompt.Some?
    || p.timeoutPrompt.Some?
    || p.vrHelpTitle.Some?
    || p.vrHelp.Some?
    || p.menuTitle.Some?
    || p.menuIcon
    || p.keyboardProperties
  }

  /** The VR help positions are exactly 1, 2, ..., n for a non-empty list. */
  predicate InOrder(items: seq<VrHelpItem>) {
    |items| > 0 && forall k :: 0 <= k < |items| ==> items[k].position == k + 1
  }

  /**
   * The first position must be 1 and each next position one more than the
   * one before. An empty list has no first position equal to 1.
   */
  method CheckVrHelpItemsOrder(vrHelp: seq<VrHelpItem>) returns (ordered: bool)
    ensures ordered <==> InOrder(vrHelp)
  {
    if |vrHelp| == 0 || vrHelp[0].position != 1 {
      return false;
    }
    var i, j := 0, 1;
    while j < |vrHelp|
      invariant 1 <= j <= |vrHelp| && i == j - 1
      invariant forall k :: 0 <= k < j ==> vrHelp[k].position == k + 1
    {
      if vrHelp[i].position + 1 != vrHelp[j].position {
        return false;
      }
      i, j := i + 1, j + 1;
    }
    return true;
  }

  /** Every catalogued command has VR synonyms. */
  predicate HasVrCommands(commands: map<nat, Command>) {
    forall id :: id in commands ==> commands[id].vrCommands.Some?
  }

  /**
   * The VR help built from the commands map: item k has position k + 1 and
   * the first VR synonym of the k-th command in ascending id order.
   */
  ghost predicate IsDefaultVrHelp(commands: map<nat, Command>, items: seq<VrHelpItem>)
    requires HasVrCommands(commands)
  {
    var ids := SortedIds(commands.Keys);
    && |items| == |ids|
    && forall k :: 0 <= k < |items| ==>
         ids[k] in commands && items[k] == VrHelpItem(k + 1, commands[ids[k]].vrCommands.value[0])
  }

  /** The default VR help of a non-empty commands map passes the order check. */
  lemma DefaultVrHelpInOrder(commands: map<nat, Command>, items: seq<VrHelpItem>)
    requires HasVrCommands(commands) && IsDefaultVrHelp(commands, items)
    requires |commands| > 0
    ensures InOrder(items)
  {
  }

  /** Taking the least remaining id extends the walk by one step. */
  lemma WalkStep(ids: set<nat>, visited: seq<nat>, remaining: set<nat>)
    requires remaining != {}
    requires SortedIds(ids) == visited + SortedIds(remaining)
    ensures SortedIds(ids) == (visited + [MinId(remaining)]) + SortedIds(remaining - {MinId(remaining)})
  {
  }

  /** Once every command has been visited with VR synonyms, all of them have VR synonyms. */
  lemma WalkComplete(commands: map<nat, Command>, visited: seq<nat>)
    requires visited == SortedIds(commands.Keys)
    requires forall k :: 0 <= k < |visited| ==> visited[k] in commands && commands[visited[k]].vrCommands.Some?
    ensures HasVrCommands(commands)
  {
    SortedIdsSpec(commands.Keys);
    forall id | id in commands
      ensures commands[id].vrCommands.Some?
    {
      assert id in visited;
      var k :| 0 <= k < |visited| && visited[k] == id;
    }
  }

  /**
   * Walks the commands map in id order, taking the first VR synonym of each
   * command; gives up when a command has no VR synonyms.
   */
  method BuildDefaultVrHelp(commands: map<nat, Command>) returns (items: Option<seq<VrHelpItem>>)
    ensures items.Some? <==> HasVrCommands(commands)
    ensures items.Some? ==> IsDefaultVrHelp(commands, items.value)
  {
    var remaining := commands.Keys;
    ghost var visited: seq<nat> := [];
    var index := 0;
    var built: seq<VrHelpItem> := [];
    while remaining != {}
      invariant remaining <= commands.Keys
      invariant SortedIds(commands.Keys) == visited + SortedIds(remaining)
      invariant index == |visited| == |built|
      invariant forall k :: 0 <= k < index ==> visited[k] in commands
      invariant forall k :: 0 <= k < index ==> commands[visited[k]].vrCommands.Some?
      invariant forall k :: 0 <= k < index ==>
        built[k] == VrHelpItem(k + 1, commands[visited[k]].vrCommands.value[0])
      decreases remaining
    {
      ghost var least := MinId(remaining);
      var id :| id in remaining && forall other :: other in remaining ==> id <= other;
      assert id <= least && least <= id;
      var command := commands[id];
      if command.vrCommands.None? {
        return None;
      }
      WalkStep(commands.Keys, visited, remaining);
      built := built + [VrHelpItem(index + 1, command.vrCommands.value[0])];
      index := index + 1;
      visited := visited + [id];
      remaining := remaining - {id};
    }
    assert visited == SortedIds(commands.Keys);
    WalkComplete(commands, visited);
    return Some(built);
  }

  /** The parameter, image and navigation checks pass, so the VR help is examined next. */
  predicate ReachesVrHelpCheck(p: Params, navigationAllowed: bool, imageCheck: MobileResult) {
    && ValidateConditionalMandatoryParameters(p)
    && imageCheck == Success
    && (navigationAllowed || (p.menuTitle.None? && !p.menuIcon && !p.keyboardProperties))
  }

  /**
   * The failure response of the first validation step that fails, or None
   * when the request may be dispatched.
   */
  function Rejection(p: Params, navigationAllowed: bool, commands: map<nat, Command>, imageCheck: MobileResult): (r: Option<MobileResult>)
    ensures r.Some? ==> r.value != Success
    ensures !ValidateConditionalMandatoryParameters(p) ==> r == Some(InvalidData)
    ensures ValidateConditionalMandatoryParameters(p) && imageCheck != Success ==> r == Some(imageCheck)
    ensures ValidateConditionalMandatoryParameters(p) && imageCheck == Success
            && !navigationAllowed && (p.menuTitle.Some? || p.menuIcon || p.keyboardProperties) ==>
      r == Some(InvalidData)
    // once the checks before the VR help pass: the VR help pair decides
    ensures ReachesVrHelpCheck(p, navigationAllowed, imageCheck) && p.vrHelpTitle.Some? != p.vrHelp.Some? ==>
      r == Some(Rejected)
    ensures ReachesVrHelpCheck(p, navigationAllowed, imageCheck)
            && p.vrHelpTitle.Some? && p.vrHelp.Some? && !InOrder(p.vrHelp.value) ==>
      r == Some(Rejected)
    ensures ReachesVrHelpCheck(p, navigationAllowed, imageCheck)
            && p.vrHelpTitle.None? && p.vrHelp.None? && !HasVrCommands(commands) ==>
      r == Some(InvalidData)
    ensures r.None? <==>
      && ValidateConditionalMandatoryParameters(p)
      && imageCheck == Success
      && (navigationAllowed || (p.menuTitle.None? && !p.menuIcon && !p.keyboardProperties))
      && (p.vrHelpTitle.Some? <==> p.vrHelp.Some?)
      && (p.vrHelp.Some? ==> InOrder(p.vrHelp.value))
      && (p.vrHelp.None? ==> HasVrCommands(commands))
  {
    if !ValidateConditionalMandatoryParameters(p) then Some(InvalidData)
    else if imageCheck != Success then Some(imageCheck)
    else if !navigationAllowed && (p.keyboardProperties || p.menuIcon || p.menuTitle.Some?) then Some(InvalidData)
    else if p.vrHelpTitle.Some? && p.vrHelp.Some? then
      (if InOrder(p.vrHelp.value) then None else Some(Rejected))
    else if p.vrHelpTitle.None? && p.vrHelp.None? then
      (if HasVrCommands(commands) then None else Some(InvalidData))
    else Some(Rejected)
  }

  /** std::max on the HMI codes. */
  function Max(a: HmiCode, b: HmiCode): (m: HmiCode)
    ensures m == a || m == b
    ensures a <= m && b <= m
  {
    if a < b then b else a
  }

  /** The one response computed from the UI and TTS result slots. */
  function Reduce(ui: HmiCode, tts: HmiCode): (r: Response)
    ensures r.success <==>
      || (ui == HMI_SUCCESS && (tts == HMI_SUCCESS || tts == HMI_UNSUPPORTED_RESOURCE || tts == HMI_INVALID_ENUM))
      || (ui == HMI_INVALID_ENUM && tts == HMI_SUCCESS)
    ensures r.code == Warnings <==> r.success && tts == HMI_UNSUPPORTED_RESOURCE
    ensures r.code != Warnings ==> r.code == FromHmi(Max(ui, tts))
    ensures r.code == Warnings || r.code == FromHmi(ui) || r.code == FromHmi(tts)
    ensures r.success ==> r.code == Success || r.code == Warnings
    ensures HMI_INVALID_ENUM <= ui && HMI_INVALID_ENUM <= tts && !r.success ==> r.code != Success
  {
    var result :=
      || (ui == HMI_SUCCESS && (tts == HMI_SUCCESS || tts == HMI_UNSUPPORTED_RESOURCE))
      || (ui == HMI_SUCCESS && tts == HMI_INVALID_ENUM)
      || (ui == HMI_INVALID_ENUM && tts == HMI_SUCCESS);
    if result && tts == HMI_UNSUPPORTED_RESOURCE then Response(true, Warnings)
    else Response(result, FromHmi(Max(ui, tts)))
  }

  class SetGlobalPropertiesRequest {
    const msg: Params
    var isUiSend: bool
    var isTtsSend: bool
    var isUiReceived: bool
    var isTtsReceived: bool
    var uiResult: HmiCode
    var ttsResult: HmiCode
    /** HMI requests emitted so far. */
    var hmiRequests: seq<HmiRequest>
    /** Responses sent to the mobile application so far. */
    var responses: seq<Response>

    constructor (msg: Params)
      ensures this.msg == msg
      ensures !isUiSend && !isTtsSend && !isUiReceived && !isTtsReceived
      ensures uiResult == HMI_INVALID_ENUM && ttsResult == HMI_INVALID_ENUM
      ensures hmiRequests == [] && responses == []
    {
      this.msg := msg;
      isUiSend, isTtsSend := false, false;
      isUiReceived, isTtsReceived := false, false;
      uiResult, ttsResult := HMI_INVALID_ENUM, HMI_INVALID_ENUM;
      hmiRequests, responses := [], [];
    }

    /**
     * Validates the request for `app` (null when no application is registered
     * for the connection), given the result of checking the request's image
     * files; then records VR help and prompts and emits the HMI requests.
     */
    method Run(app: Application?, imageCheck: MobileResult)
      modifies this`hmiRequests, this`responses
      modifies AppFrame(app)`vrHelpTitle, AppFrame(app)`vrHelp, AppFrame(app)`helpPrompt, AppFrame(app)`timeoutPrompt
      ensures app == null ==>
        && responses == old(responses) + [Response(false, ApplicationNotRegistered)]
        && hmiRequests == old(hmiRequests)
      ensures app != null ==>
        var rejection := Rejection(msg, app.allowedSupportNavigation, old(app.commands), imageCheck);
        rejection.Some? ==>
          && responses == old(responses) + [Response(false, rejection.value)]
          && hmiRequests == old(hmiRequests)
          && app.vrHelpTitle == old(app.vrHelpTitle) && app.vrHelp == old(app.vrHelp)
          && app.helpPrompt == old(app.helpPrompt) && app.timeoutPrompt == old(app.timeoutPrompt)
      ensures app != null && Rejection(msg, app.allowedSupportNavigation, old(app.commands), imageCheck).None? ==>
        && responses == old(responses)
        && app.vrHelpTitle.Some? && app.vrHelp.Some?
        && (msg.vrHelp.Some? ==> app.vrHelpTitle == msg.vrHelpTitle && app.vrHelp == msg.vrHelp)
        && (msg.vrHelp.None? ==>
              app.vrHelpTitle == Some(app.name) && IsDefaultVrHelp(old(app.commands), app.vrHelp.value))
        && app.helpPrompt == (if msg.helpPrompt.Some? then msg.helpPrompt else old(app.helpPrompt))
        && app.timeoutPrompt == (if msg.timeoutPrompt.Some? then msg.timeoutPrompt else old(app.timeoutPrompt))
        && hmiRequests == old(hmiRequests)
             + [UiRequest(app.vrHelpTitle.value, app.vrHelp.value, app.appId,
                          msg.menuTitle, msg.menuIcon, msg.keyboardProperties)]
             + (if msg.helpPrompt.Some? || msg.timeoutPrompt.Some?
                then [TtsRequest(msg.helpPrompt, msg.timeoutPrompt, app.appId)]
                else [])
    {
      if app == null {
        responses := responses + [Response(false, ApplicationNotRegistered)];
        return;
      }
      if !ValidateConditionalMandatoryParameters(msg) {
        responses := responses + [Response(false, InvalidData)];
        return;
      }
      if imageCheck != Success {
        responses := responses + [Response(false, imageCheck)];
        return;
      }
      if !app.allowedSupportNavigation && (msg.keyboardProperties || msg.menuIcon || msg.menuTitle.Some?) {
        responses := responses + [Response(false, InvalidData)];
        return;
      }
      if msg.vrHelpTitle.Some? && msg.vrHelp.Some? {
        var ordered := CheckVrHelpItemsOrder(msg.vrHelp.value);
        if !ordered {
          responses := responses + [Response(false, Rejected)];
          return;
        }
        app.vrHelpTitle := msg.vrHelpTitle;
        app.vrHelp := msg.vrHelp;
      } else if msg.vrHelpTitle.None? && msg.vrHelp.None? {
        var items := BuildDefaultVrHelp(app.commands);
        if items.None? {
          responses := responses + [Response(false, InvalidData)];
          return;
        }
        app.vrHelpTitle := Some(app.name);
        app.vrHelp := items;
      } else {
        responses := responses + [Response(false, Rejected)];
        return;
      }
      hmiRequests := hmiRequests + [UiRequest(app.vrHelpTitle.value, app.vrHelp.value, app.appId,
                                              msg.menuTitle, msg.menuIcon, msg.keyboardProperties)];
      if msg.helpPrompt.Some? || msg.timeoutPrompt.Some? {
        if msg.helpPrompt.Some? {
          app.helpPrompt := msg.helpPrompt;
        }
        if msg.timeoutPrompt.Some? {
          app.timeoutPrompt := msg.timeoutPrompt;
        }
        hmiRequests := hmiRequests + [TtsRequest(msg.helpPrompt, msg.timeoutPrompt, app.appId)];
      }
    }

    /**
     * Records a UI or TTS reply in its own slot and answers the application
     * at once from both slots; a reply of any other function is ignored.
     */
    method OnEvent(event: HmiEvent)
      modifies this`isUiReceived, this`uiResult, this`isTtsReceived, this`ttsResult, this`responses
      ensures event.id.OtherFunction? ==> unchanged(this)
      ensures event.id.UiSetGlobalProperties? ==>
        && isUiReceived && uiResult == event.code
        && isTtsReceived == old(isTtsReceived) && ttsResult == old(ttsResult)
      ensures event.id.TtsSetGlobalProperties? ==>
        && isTtsReceived && ttsResult == event.code
        && isUiReceived == old(isUiReceived) && uiResult == old(uiResult)
      ensures !event.id.OtherFunction? ==> responses == old(responses) + [Reduce(uiResult, ttsResult)]
    {
      match event.id {
        case UiSetGlobalProperties =>
          isUiReceived := true;
          uiResult := event.code;
        case TtsSetGlobalProperties =>
          isTtsReceived := true;
          ttsResult := event.code;
        case OtherFunction(_) =>
          return;
      }
      responses := responses + [Reduce(uiResult, ttsResult)];
    }

    /** As written: compares the send flags, which nothing ever sets, with the receive flags. */
    function IsPendingResponseExist(): (pending: bool)
      reads this
      ensures !isUiSend && !isTtsSend ==> (pending <==> isUiReceived || isTtsReceived)
    {
      isUiSend != isUiReceived || isTtsSend != isTtsReceived
    }

    /** A UI request has been emitted. */
    function UiSent(): bool
      reads this
    {
      exists i :: 0 <= i < |hmiRequests| && hmiRequests[i].UiRequest?
    }

    /** A TTS request has been emitted. */
    function TtsSent(): bool
      reads this
    {
      exists i :: 0 <= i < |hmiRequests| && hmiRequests[i].TtsRequest?
    }

    /**
     * Corrected: a response is pending when a request was emitted and its
     * reply has not arrived.
     */
    function HasPendingResponse(): (pending: bool)
      reads this
      ensures (isUiReceived ==> UiSent()) && (isTtsReceived ==> TtsSent()) ==>
        (pending <==> (UiSent() && !isUiReceived) || (TtsSent() && !isTtsReceived))
    {
      UiSent() != isUiReceived || TtsSent() != isTtsReceived
    }
  }

  /**
   * Right after Run has emitted the UI request and before any reply, the
   * as-written check reports nothing pending, while the corrected one does.
   */
  lemma PendingResponseMisreported(request: SetGlobalPropertiesRequest)
    requires !request.isUiSend && !request.isTtsSend
    requires request.UiSent() && !request.isUiReceived && !request.isTtsReceived
    ensures !request.IsPendingResponseExist()
    ensures request.HasPendingResponse()
  {
  }

  /**
   * The UI and the TTS reply to one request, in either order: each is
   * answered at once, the first from its own slot and the other still
   * INVALID_ENUM, the second from both slots whatever the order.
   */
  method RepliesInEitherOrder(msg: Params, uiCode: HmiCode, ttsCode: HmiCode, uiFirst: bool)
    returns (responses: seq<Response>)
    ensures |responses| == 2
    ensures responses[0] == if uiFirst then Reduce(uiCode, HMI_INVALID_ENUM) else Reduce(HMI_INVALID_ENUM, ttsCode)
    ensures responses[1] == Reduce(uiCode, ttsCode)
  {
    var request := new SetGlobalPropertiesRequest(msg);
    if uiFirst {
      request.OnEvent(HmiEvent(UiSetGlobalProperties, uiCode));
      request.OnEvent(HmiEvent(TtsSetGlobalProperties, ttsCode));
    } else {
      request.OnEvent(HmiEvent(TtsSetGlobalProperties, ttsCode));
      request.OnEvent(HmiEvent(UiSetGlobalProperties, uiCode));
    }
    responses := request.responses;
  }
}

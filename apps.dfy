/**
 * The application-manager state that the three command handlers read and
 * update: result codes, the per-application registry (commands, VR help,
 * prompts, uploaded files) and the message-chain table that correlates the
 * HMI replies of one DeleteCommand.
 */
module Apps {
  import opened Wrappers

  // ---------------------------------------------------------------------------
  // Result codes
  // ---------------------------------------------------------------------------

  /** An hmi_apis::Common_Result value, by its integer value (only its order matters). */
  type HmiCode = int

  const HMI_INVALID_ENUM: HmiCode := -1
  const HMI_SUCCESS: HmiCode := 0
  const HMI_UNSUPPORTED_RESOURCE: HmiCode := 2

  /**
   * A mobile_apis::Result value. The codes this core sends by name are
   * constructors; `Numbered` is a code reached by casting an HMI code, kept
   * as that code's integer value.
   */
  datatype MobileResult =
    | Success
    | Warnings
    | InvalidData
    | Rejected
    | GenericError
    | ApplicationNotRegistered
    | Numbered(value: int)

  /** The static_cast of an HMI code to a mobile code: SUCCESS is SUCCESS on both sides. */
  function FromHmi(code: HmiCode): (r: MobileResult)
    ensures r == Success <==> code == HMI_SUCCESS
    ensures r != Warnings
  {
    if code == HMI_SUCCESS then Success else Numbered(code)
  }

  /** What SendResponse(success, code) delivers to the mobile application. */
  datatype Response = Response(success: bool, code: MobileResult)

  // ---------------------------------------------------------------------------
  // Application registry
  // ---------------------------------------------------------------------------

  datatype HmiLevel = HmiFull | HmiLimited | HmiBackground | HmiNone

  datatype MenuParams = MenuParams(parentId: int, position: int, menuName: string)

  /** An AddCommand's vrCommands array: at least one synonym. */
  type VrSynonyms = s: seq<string> | |s| > 0 witness [""]

  /**
   * A command catalogued by AddCommand. `menuParams` and `vrCommands` are the
   * keys DeleteCommand erases; `cmdIcon` stands for every other key.
   */
  datatype Command = Command(menuParams: Option<MenuParams>, vrCommands: Option<VrSynonyms>, cmdIcon: Option<string>)

  datatype VrHelpItem = VrHelpItem(position: int, text: string)

  datatype TtsChunk = TtsChunk(text: string)

  type Prompt = seq<TtsChunk>

  /** What the application records about a file uploaded with PutFile. */
  datatype AppFile = AppFile(persistent: bool, downloadComplete: bool)

  class Application {
    const appId: nat
    const name: string
    const allowedSupportNavigation: bool
    var hmiLevel: HmiLevel
    var vrHelpTitle: Option<string>
    var vrHelp: Option<seq<VrHelpItem>>
    var helpPrompt: Option<Prompt>
    var timeoutPrompt: Option<Prompt>
    /** The CommandsMap: a std::map, so iterated in ascending id order. */
    var commands: map<nat, Command>
    var files: map<string, AppFile>
    var putFileInNoneCount: nat

    /** A newly registered application: no VR help, prompts, commands or files yet. */
    constructor (appId: nat, name: string, allowedSupportNavigation: bool, hmiLevel: HmiLevel)
      ensures this.appId == appId && this.name == name
      ensures this.allowedSupportNavigation == allowedSupportNavigation && this.hmiLevel == hmiLevel
      ensures vrHelpTitle.None? && vrHelp.None? && helpPrompt.None? && timeoutPrompt.None?
      ensures commands == map[] && files == map[] && putFileInNoneCount == 0
    {
      this.appId, this.name := appId, name;
      this.allowedSupportNavigation, this.hmiLevel := allowedSupportNavigation, hmiLevel;
      vrHelpTitle, vrHelp, helpPrompt, timeoutPrompt := None, None, None, None;
      commands, files, putFileInNoneCount := map[], map[], 0;
    }

    /** Registers a new file; fails when a file of that name already exists. */
    method AddFile(fileName: string, persistent: bool, downloadComplete: bool) returns (added: bool)
      modifies this`files
      ensures added <==> fileName !in old(files)
      ensures files == if added then old(files)[fileName := AppFile(persistent, downloadComplete)] else old(files)
    {
      added := fileName !in files;
      if added {
        files := files[fileName := AppFile(persistent, downloadComplete)];
      }
    }

    /** Rewrites a known file's record; fails when the application does not know the file. */
    method UpdateFile(fileName: string, persistent: bool, downloadComplete: bool) returns (updated: bool)
      modifies this`files
      ensures updated <==> fileName in old(files)
      ensures files == if updated then old(files)[fileName := AppFile(persistent, downloadComplete)] else old(files)
    {
      updated := fileName in files;
      if updated {
        files := files[fileName := AppFile(persistent, downloadComplete)];
      }
    }

    method IncrementPutFileInNoneCount()
      modifies this`putFileInNoneCount
      ensures putFileInNoneCount == old(putFileInNoneCount) + 1
    {
      putFileInNoneCount := putFileInNoneCount + 1;
    }

    method RemoveCommand(cmdId: nat)
      modifies this`commands
      ensures commands == old(commands) - {cmdId}
    {
      commands := commands - {cmdId};
    }
  }

  /** The frame of an application lookup that may have found nothing. */
  function AppFrame(app: Application?): set<Application> {
    if app == null then {} else {app}
  }

  // ---------------------------------------------------------------------------
  // Ordered iteration over a CommandsMap
  // ---------------------------------------------------------------------------

  /** The least id of a non-empty set of ids. */
  ghost function MinId(ids: set<nat>): (m: nat)
    requires ids != {}
    ensures m in ids
    ensures forall y :: y in ids ==> m <= y
  {
    var x :| x in ids;
    var others := ids - {x};
    assert forall y :: y in ids ==> y == x || y in others;
    if others == {} then x
    else
      var least := MinId(others);
      if x <= least then x else least
  }

  /** The ids of a set in ascending order: the order in which a std::map is walked. */
  ghost function SortedIds(ids: set<nat>): seq<nat>
  {
    if ids == {} then []
    else
      var m := MinId(ids);
      [m] + SortedIds(ids - {m})
  }

  /** The walk visits the ids of the set and nothing else, in strictly ascending order. */
  lemma {:induction false} SortedIdsSpec(ids: set<nat>)
    ensures forall i :: 0 <= i < |SortedIds(ids)| ==> SortedIds(ids)[i] in ids
    ensures forall x :: x in ids ==> x in SortedIds(ids)
    ensures forall i, j :: 0 <= i < j < |SortedIds(ids)| ==> SortedIds(ids)[i] < SortedIds(ids)[j]
  {
    if ids != {} {
      var m := MinId(ids);
      var rest := SortedIds(ids - {m});
      SortedIdsSpec(ids - {m});
      assert SortedIds(ids) == [m] + rest;
      assert forall i :: 0 < i < |SortedIds(ids)| ==> SortedIds(ids)[i] == rest[i - 1];
    }
  }

  /** The walk has one step per id. */
  lemma {:induction false} SortedIdsLength(ids: set<nat>)
    ensures |SortedIds(ids)| == |ids|
  {
    if ids != {} {
      var m := MinId(ids);
      SortedIdsLength(ids - {m});
      assert |ids - {m}| == |ids| - 1;
    }
  }

  // ---------------------------------------------------------------------------
  // Message chains
  // ---------------------------------------------------------------------------

  /**
   * The bookkeeping a DeleteCommand leaves behind for its HMI replies: how many
   * replies are outstanding, the result slot of each subsystem, and the
   * application and command to finish with.
   */
  datatype MessageChain = MessageChain(count: nat, uiResult: int, vrResult: int, appId: nat, cmdId: nat)

  class ApplicationManager {
    var applications: map<nat, Application>
    /** Live message chains by correlation id. */
    var chains: map<int, MessageChain>

    constructor ()
      ensures applications == map[] && chains == map[]
    {
      applications, chains := map[], map[];
    }

    /** A live chain still awaits at least one reply. */
    ghost predicate Valid()
      reads this
    {
      forall id :: id in chains ==> chains[id].count > 0
    }

    /**
     * Counts one reply against the chain: true exactly when this reply was the
     * last one outstanding, in which case the chain is discarded.
     */
    method DecreaseMessageChain(correlationId: int) returns (completed: bool)
      requires Valid()
      modifies this`chains
      ensures Valid()
      ensures completed <==> correlationId in old(chains) && old(chains)[correlationId].count == 1
      ensures correlationId !in old(chains) ==> chains == old(chains)
      ensures correlationId in old(chains) && completed ==> chains == old(chains) - {correlationId}
      ensures correlationId in old(chains) && !completed ==>
        chains == old(chains)[correlationId := old(chains)[correlationId].(count := old(chains)[correlationId].count - 1)]
    {
      if correlationId !in chains {
        return false;
      }
      var chain := chains[correlationId];
      if chain.count == 1 {
        chains := chains - {correlationId};
        completed := true;
      } else {
        chains := chains[correlationId := chain.(count := chain.count - 1)];
        completed := false;
      }
    }
  }
}

/** The lobby: connects the wallet, creates a match or joins one by id, and
    hands the game screen a `matchId|category` string. */
module Lobby {
  import opened Common
  import GameScreen

  // ---------------------------------------------------------------------------
  // The strings the lobby enters a match with.
  // ---------------------------------------------------------------------------

  /** `${matchId}|${selectedCategory}` after a successful create. */
  function CreateTarget(matchId: string, category: string): (r: string)
    ensures |r| == |matchId| + 1 + |category|
    ensures r[..|matchId|] == matchId && r[|matchId|] == '|' && r[|matchId| + 1..] == category
  {
    matchId + "|" + category
  }

  /** `match-${stamp}|${selectedCategory}` after a failed create; `stamp` is
      the base-36 clock reading. */
  function FallbackTarget(stamp: string, category: string): (r: string)
    ensures r == CreateTarget("match-" + stamp, category)
  {
    "match-" + stamp + "|" + category
  }

  /** `handleJoin`'s target: nothing for an id that is empty once trimmed,
      otherwise the trimmed id with the "all" category. */
  function JoinTarget(joiningId: string): (r: Option<string>)
    ensures r.None? <==> Trim(joiningId) == ""
    ensures r.Some? ==> r.value == CreateTarget(Trim(joiningId), "all")
  {
    var id := Trim(joiningId);
    if id == "" then None else Some(id + "|all")
  }

  /** Joining enters no match exactly when the id is empty or white space
      only. */
  lemma JoinRefusesBlank(joiningId: string)
    ensures JoinTarget(joiningId).None? <==>
      forall i :: 0 <= i < |joiningId| ==> IsWhiteSpace(joiningId[i])
  {
    TrimEmptyIffBlank(joiningId);
  }

  /** The game screen parses what the lobby creates back into the match id and
      the category, as long as neither contains the separator. */
  lemma {:induction false} CreateRoundTrip(matchId: string, category: string)
    requires '|' !in matchId && '|' !in category
    ensures GameScreen.ParseMatchId(CreateTarget(matchId, category)) == (matchId, category)
  {
    var target := CreateTarget(matchId, category);
    assert Join([matchId, category], '|') == target;
    SplitJoin([matchId, category], '|');
    assert target[|matchId|] == '|';
  }

  /** The fallback id parses back into `match-<stamp>` and the category. */
  lemma FallbackRoundTrip(stamp: string, category: string)
    requires '|' !in stamp && '|' !in category
    ensures GameScreen.ParseMatchId(FallbackTarget(stamp, category)) == ("match-" + stamp, category)
  {
    assert '|' !in "match-";
    CreateRoundTrip("match-" + stamp, category);
  }

  /** A joined id parses back into the trimmed id and "all". */
  lemma JoinRoundTrip(joiningId: string)
    requires '|' !in joiningId
    requires JoinTarget(joiningId).Some?
    ensures GameScreen.ParseMatchId(JoinTarget(joiningId).value) == (Trim(joiningId), "all")
  {
    TrimKeepsAbsent(joiningId, '|');
    CreateRoundTrip(Trim(joiningId), "all");
  }

  // ---------------------------------------------------------------------------
  // The page state.
  // ---------------------------------------------------------------------------

  /** How `connectWallet` ended: it threw, or it returned and the client then
      reported the address it holds. */
  datatype WalletReply = WalletFailed | WalletReady(address: Option<string>)

  /** The address the lobby shows after a failed connection. */
  const DEMO_ADDRESS := "demo-address-123"

  class LobbyPage {
    var creating: bool
    var joiningId: string
    var connected: bool
    var walletAddress: Option<string>
    var selectedCategory: string

    constructor ()
      ensures !creating && joiningId == "" && !connected
      ensures walletAddress.None? && selectedCategory == "all"
    {
      creating := false;
      joiningId := "";
      connected := false;
      walletAddress := None;
      selectedCategory := "all";
    }

    /** `checkConnection` with the client's current address: a non-empty
        address connects the page; null or "" leaves it as it was. */
    method CheckConnection(address: Option<string>)
      modifies this
      ensures address.Some? && address.value != "" ==>
        connected && walletAddress == address
      ensures address.None? || address.value == "" ==>
        connected == old(connected) && walletAddress == old(walletAddress)
      ensures creating == old(creating) && joiningId == old(joiningId)
      ensures selectedCategory == old(selectedCategory)
    {
      if address.Some? && address.value != "" {
        connected := true;
        walletAddress := address;
      }
    }

    /** `handleConnect`: after a successful connection the page checks the
        address; after a failure it is connected anyway, in demo mode. */
    method HandleConnect(reply: WalletReply)
      modifies this
      ensures reply.WalletFailed? ==> connected && walletAddress == Some(DEMO_ADDRESS)
      ensures reply.WalletReady? && reply.address.Some? && reply.address.value != "" ==>
        connected && walletAddress == reply.address
      ensures reply.WalletReady? && (reply.address.None? || reply.address.value == "") ==>
        connected == old(connected) && walletAddress == old(walletAddress)
      ensures creating == old(creating) && joiningId == old(joiningId)
      ensures selectedCategory == old(selectedCategory)
    {
      match reply {
        case WalletFailed =>
          connected := true;
          walletAddress := Some(DEMO_ADDRESS);
        case WalletReady(address) =>
          CheckConnection(address);
      }
    }

    /** The first half of `handleCreate`: a page that is not connected only
        tries to connect (as `handleConnect`) and creates nothing; a connected
        one starts creating.  `category` is the selected category the click
        captured, which the second half uses whatever is selected meanwhile. */
    method StartCreate(reply: WalletReply) returns (proceed: bool, category: string)
      modifies this
      ensures proceed == old(connected)
      ensures category == old(selectedCategory)
      ensures proceed ==> creating && connected && walletAddress == old(walletAddress)
      ensures !proceed ==> creating == old(creating)
      ensures !proceed && reply.WalletFailed? ==> connected && walletAddress == Some(DEMO_ADDRESS)
      ensures !proceed && reply.WalletReady? && reply.address.Some? && reply.address.value != "" ==>
        connected && walletAddress == reply.address
      ensures !proceed && reply.WalletReady? && (reply.address.None? || reply.address.value == "") ==>
        !connected && walletAddress == old(walletAddress)
      ensures joiningId == old(joiningId) && selectedCategory == old(selectedCategory)
    {
      category := selectedCategory;
      if !connected {
        HandleConnect(reply);
        return false, category;
      }
      creating := true;
      proceed := true;
    }

    /** The second half of `handleCreate`, once the client has answered with a
        match id or failed: the page enters the created match, or a fallback
        one, with the category captured at the click, and stops creating
        either way. */
    method FinishCreate(created: Option<string>, stamp: string, category: string) returns (target: string)
      modifies this
      ensures !creating
      ensures created.Some? ==> target == CreateTarget(created.value, category)
      ensures created.None? ==> target == FallbackTarget(stamp, category)
      ensures connected == old(connected) && walletAddress == old(walletAddress)
      ensures joiningId == old(joiningId) && selectedCategory == old(selectedCategory)
    {
      if created.Some? {
        target := created.value + "|" + category;
      } else {
        target := "match-" + stamp + "|" + category;
      }
      creating := false;
    }

    /** `handleJoin`: the match to enter, or nothing for a blank id. */
    method HandleJoin() returns (target: Option<string>)
      ensures target.None? <==> forall i :: 0 <= i < |joiningId| ==> IsWhiteSpace(joiningId[i])
      ensures target == JoinTarget(joiningId)
    {
      JoinRefusesBlank(joiningId);
      var id := Trim(joiningId);
      if id == "" {
        return None;
      }
      target := Some(id + "|all");
    }

    /** The match id input's `onChange`. */
    method SetJoiningId(id: string)
      modifies this
      ensures joiningId == id
      ensures creating == old(creating) && connected == old(connected)
      ensures walletAddress == old(walletAddress) && selectedCategory == old(selectedCategory)
    {
      joiningId := id;
    }

    /** A category button's `onClick`; the buttons stay enabled while a
        match is being created. */
    method SelectCategory(category: string)
      modifies this
      ensures selectedCategory == category
      ensures creating == old(creating) && connected == old(connected)
      ensures walletAddress == old(walletAddress) && joiningId == old(joiningId)
    {
      selectedCategory := category;
    }
  }

  /** A click on create with "all" selected, then a click on the physics
      category while the client is still creating: the page enters the
      created match with "all", the category of the click. */
  method SwitchCategoryWhileCreating(created: string) returns (target: string)
    ensures target == CreateTarget(created, "all")
  {
    var page := new LobbyPage();
    page.HandleConnect(WalletFailed);
    var proceed, category := page.StartCreate(WalletFailed);
    page.SelectCategory("physics");
    target := page.FinishCreate(Some(created), "", category);
  }
}

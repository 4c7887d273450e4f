/** The dashboard's page and profile handlers
    (autosocial-ai/components/Dashboard.tsx): page automation on and off, the
    main profile's connect switch and deletion, page deletion and the
    AI-training editor. Each request that can be refused is guarded, and the
    guards keep "profile disconnected ==> no page automated". */
module Dashboard {
  import opened Types
  import opened Seqs
  import Replies

  /** The warnings the handlers raise instead of acting. */
  datatype Warning =
    | ConnectProfileFirst            // enabling a page while the profile is off
    | ActivePagesFirst(count: nat)   // switching off or deleting the profile with automated pages
    | ProfileStillActive             // deleting a connected profile
    | PageStillActive                // deleting an automated page

  /** The lookup callback: the page has the id. */
  function IdIs(id: string): ConnectedPage -> bool {
    (p: ConnectedPage) => p.id == id
  }

  /** No page has automation on. */
  predicate NoneAutomated(pages: seq<ConnectedPage>) {
    forall i :: 0 <= i < |pages| ==> !pages[i].automationEnabled
  }

  /** The filter callback of `getActivePageCount`. */
  function IsAutomated(): ConnectedPage -> bool {
    (p: ConnectedPage) => p.automationEnabled
  }

  /** `getActivePageCount`: the number of pages with automation on. */
  function ActivePageCount(pages: seq<ConnectedPage>): (n: nat)
    ensures n <= |pages|
    ensures n == 0 <==> NoneAutomated(pages)
  {
    FilterEmpty(pages, IsAutomated());
    |Filter(pages, IsAutomated())|
  }

  /** The count is additive over concatenation. */
  lemma ActivePageCountConcat(a: seq<ConnectedPage>, b: seq<ConnectedPage>)
    ensures ActivePageCount(a + b) == ActivePageCount(a) + ActivePageCount(b)
  {
    FilterConcat(a, b, IsAutomated());
  }

  /** A single page counts one exactly when its automation is on; with the
      concatenation law this fixes the count of every list. */
  lemma ActivePageCountOne(p: ConnectedPage)
    ensures ActivePageCount([p]) == if p.automationEnabled then 1 else 0
  {
    assert [p][1..] == [];
  }

  /** Every page counts exactly when every page is automated. */
  lemma ActivePageCountAll(pages: seq<ConnectedPage>)
    ensures ActivePageCount(pages) == |pages| <==> forall i :: 0 <= i < |pages| ==> pages[i].automationEnabled
  {
    FilterFull(pages, IsAutomated());
  }

  /** The pages after the automation of the pages with the id is set to `on`. */
  function SetAutomation(pages: seq<ConnectedPage>, id: string, on: bool): (r: seq<ConnectedPage>)
    ensures |r| == |pages|
    ensures forall i :: 0 <= i < |pages| ==>
      r[i] == if pages[i].id == id then pages[i].(automationEnabled := on) else pages[i]
  {
    MapWhere(pages, (p: ConnectedPage) => p.id == id, (p: ConnectedPage) => p.(automationEnabled := on))
  }

  /** Switching automation off on some pages leaves none automated that was not. */
  lemma SwitchOffKeepsNoneAutomated(pages: seq<ConnectedPage>, id: string)
    requires NoneAutomated(pages)
    ensures NoneAutomated(SetAutomation(pages, id, false))
  {
  }

  /** The pages after `confirmDeletePage`: every page with another id. */
  function WithoutPage(pages: seq<ConnectedPage>, id: string): (r: seq<ConnectedPage>)
    ensures forall p :: p in r <==> p in pages && p.id != id
    ensures forall p: ConnectedPage :: p.id != id ==> multiset(r)[p] == multiset(pages)[p]
    ensures IsSubseq(r, pages)
  {
    var keep := (p: ConnectedPage) => p.id != id;
    FilterIsSubseq(pages, keep);
    forall p: ConnectedPage | p.id != id ensures multiset(Filter(pages, keep))[p] == multiset(pages)[p] {
      FilterCount(pages, keep, p);
    }
    Filter(pages, keep)
  }

  /** Removing pages leaves none automated that was not. */
  lemma RemovalKeepsNoneAutomated(pages: seq<ConnectedPage>, id: string)
    requires NoneAutomated(pages)
    ensures NoneAutomated(WithoutPage(pages, id))
  {
    var r := WithoutPage(pages, id);
    forall i | 0 <= i < |r| ensures !r[i].automationEnabled {
      assert r[i] in r;
    }
  }

  /** Saving instructions leaves every automation flag as it was. */
  lemma TrainingKeepsAutomation(pages: seq<ConnectedPage>, id: string, text: string)
    ensures var r := Replies.SetInstructions(pages, id, text);
      |r| == |pages| && forall i :: 0 <= i < |r| ==> r[i].automationEnabled == pages[i].automationEnabled
  {
  }

  /** The dashboard's state, together with the application's page list. */
  class DashboardView {
    var pages: seq<ConnectedPage>
    var isTrainModalOpen: bool
    var selectedPageId: Option<string>
    var trainingText: string
    var isProfileVisible: bool
    var isProfileConnected: bool
    var isProfileDeleteModalOpen: bool
    var isProfileToggleModalOpen: bool
    var isDeletePageModalOpen: bool
    var isStopAutomationModalOpen: bool
    var pageToStopId: Option<string>
    var pageToDeleteId: Option<string>
    var isWarningModalOpen: bool
    var warningMessage: Option<Warning>

    /** The guarded invariant: a disconnected profile has no automated page. */
    ghost predicate Valid()
      reads this
    {
      !isProfileConnected ==> NoneAutomated(pages)
    }

    /** The first render: a visible, connected profile and every modal closed. */
    constructor (pages: seq<ConnectedPage>)
      ensures Valid() && this.pages == pages
      ensures isProfileVisible && isProfileConnected
      ensures !isTrainModalOpen && !isProfileDeleteModalOpen && !isProfileToggleModalOpen
      ensures !isDeletePageModalOpen && !isStopAutomationModalOpen && !isWarningModalOpen
      ensures selectedPageId == None && pageToStopId == None && pageToDeleteId == None
      ensures trainingText == "" && warningMessage == None
    {
      this.pages := pages;
      isTrainModalOpen := false;
      selectedPageId := None;
      trainingText := "";
      isProfileVisible := true;
      isProfileConnected := true;
      isProfileDeleteModalOpen := false;
      isProfileToggleModalOpen := false;
      isDeletePageModalOpen := false;
      isStopAutomationModalOpen := false;
      pageToStopId := None;
      pageToDeleteId := None;
      isWarningModalOpen := false;
      warningMessage := None;
    }

    /** `handleToggleAutomation(id)`: for an automated page, ask to confirm
        switching it off; otherwise switch it on, unless the profile is off. */
    method ToggleAutomation(id: string)
      requires Valid()
      modifies this`pages, this`pageToStopId, this`isStopAutomationModalOpen, this`warningMessage, this`isWarningModalOpen
      ensures Valid()
      ensures FindIndex(old(pages), IdIs(id)).None? ==>
        pages == old(pages) && pageToStopId == old(pageToStopId) && isStopAutomationModalOpen == old(isStopAutomationModalOpen)
        && warningMessage == old(warningMessage) && isWarningModalOpen == old(isWarningModalOpen)
      ensures FindIndex(old(pages), IdIs(id)).Some? ==>
        var first := old(pages)[FindIndex(old(pages), IdIs(id)).value];
        if first.automationEnabled then
          pages == old(pages) && pageToStopId == Some(id) && isStopAutomationModalOpen
          && warningMessage == old(warningMessage) && isWarningModalOpen == old(isWarningModalOpen)
        else if !isProfileConnected then
          pages == old(pages) && pageToStopId == old(pageToStopId) && isStopAutomationModalOpen == old(isStopAutomationModalOpen)
          && warningMessage == Some(ConnectProfileFirst) && isWarningModalOpen
        else
          pages == SetAutomation(old(pages), id, true) && pageToStopId == old(pageToStopId)
          && isStopAutomationModalOpen == old(isStopAutomationModalOpen)
          && warningMessage == old(warningMessage) && isWarningModalOpen == old(isWarningModalOpen)
    {
      var k := FindIndex(pages, IdIs(id));
      if k.Some? {
        if pages[k.value].automationEnabled {
          pageToStopId := Some(id);
          isStopAutomationModalOpen := true;
        } else {
          if !isProfileConnected {
            warningMessage := Some(ConnectProfileFirst);
            isWarningModalOpen := true;
            return;
          }
          pages := SetAutomation(pages, id, true);
        }
      }
    }

    /** `confirmStopAutomation`: switches the recorded page off. */
    method ConfirmStopAutomation()
      requires Valid()
      modifies this`pages, this`pageToStopId, this`isStopAutomationModalOpen
      ensures Valid() && !isStopAutomationModalOpen
      ensures Truthy(old(pageToStopId)) ==> pages == SetAutomation(old(pages), old(pageToStopId).value, false) && pageToStopId == None
      ensures !Truthy(old(pageToStopId)) ==> pages == old(pages) && pageToStopId == old(pageToStopId)
    {
      if Truthy(pageToStopId) {
        if !isProfileConnected {
          SwitchOffKeepsNoneAutomated(pages, pageToStopId.value);
        }
        pages := SetAutomation(pages, pageToStopId.value, false);
        pageToStopId := None;
      }
      isStopAutomationModalOpen := false;
    }

    /** `openTrainModal(page)`. */
    method OpenTrainModal(page: ConnectedPage)
      modifies this`selectedPageId, this`trainingText, this`isTrainModalOpen
      ensures selectedPageId == Some(page.id) && trainingText == page.aiInstructions && isTrainModalOpen
    {
      selectedPageId := Some(page.id);
      trainingText := page.aiInstructions;
      isTrainModalOpen := true;
    }

    /** `saveTraining`: stores the instructions on the selected page, if any. */
    method SaveTraining()
      requires Valid()
      modifies this`pages, this`isTrainModalOpen
      ensures Valid() && !isTrainModalOpen
      ensures pages == if Truthy(selectedPageId) then Replies.SetInstructions(old(pages), selectedPageId.value, trainingText) else old(pages)
    {
      if Truthy(selectedPageId) {
        TrainingKeepsAutomation(pages, selectedPageId.value, trainingText);
        pages := Replies.SetInstructions(pages, selectedPageId.value, trainingText);
      }
      isTrainModalOpen := false;
    }

    /** `handleProfileToggle`: switching the profile off is refused while a page
        is automated and otherwise asks for confirmation (`asked`); switching it
        on happens at once. */
    method ProfileToggle() returns (asked: bool)
      requires Valid()
      modifies this`isProfileConnected, this`isProfileToggleModalOpen, this`warningMessage, this`isWarningModalOpen
      ensures Valid()
      ensures asked <==> old(isProfileConnected) && ActivePageCount(pages) == 0
      ensures asked ==> isProfileToggleModalOpen && isProfileConnected
      ensures old(isProfileConnected) && !asked ==>
        warningMessage == Some(ActivePagesFirst(ActivePageCount(pages))) && isWarningModalOpen
        && isProfileConnected && isProfileToggleModalOpen == old(isProfileToggleModalOpen)
      ensures !old(isProfileConnected) ==>
        isProfileConnected && isProfileToggleModalOpen == old(isProfileToggleModalOpen)
        && warningMessage == old(warningMessage) && isWarningModalOpen == old(isWarningModalOpen)
    {
      asked := false;
      if isProfileConnected {
        var activeCount := ActivePageCount(pages);
        if activeCount > 0 {
          warningMessage := Some(ActivePagesFirst(activeCount));
          isWarningModalOpen := true;
          return;
        }
        isProfileToggleModalOpen := true;
        asked := true;
      } else {
        isProfileConnected := true;
      }
    }

    /** `confirmProfileTurnOff`. The invariant survives exactly when no page is
        automated, which a successful request has just checked. */
    method ConfirmProfileTurnOff()
      modifies this`isProfileConnected, this`isProfileToggleModalOpen
      ensures !isProfileConnected && !isProfileToggleModalOpen
      ensures Valid() <==> NoneAutomated(pages)
    {
      isProfileConnected := false;
      isProfileToggleModalOpen := false;
    }

    /** `handleProfileDeleteRequest`: asks to confirm (`asked`) only when no page
        is automated and the profile is off. */
    method ProfileDeleteRequest() returns (asked: bool)
      modifies this`isProfileDeleteModalOpen, this`warningMessage, this`isWarningModalOpen
      ensures asked <==> ActivePageCount(pages) == 0 && !isProfileConnected
      ensures asked ==> isProfileDeleteModalOpen && warningMessage == old(warningMessage) && isWarningModalOpen == old(isWarningModalOpen)
      ensures ActivePageCount(pages) > 0 ==>
        warningMessage == Some(ActivePagesFirst(ActivePageCount(pages))) && isWarningModalOpen
        && isProfileDeleteModalOpen == old(isProfileDeleteModalOpen)
      ensures ActivePageCount(pages) == 0 && isProfileConnected ==>
        warningMessage == Some(ProfileStillActive) && isWarningModalOpen
        && isProfileDeleteModalOpen == old(isProfileDeleteModalOpen)
    {
      asked := false;
      var activeCount := ActivePageCount(pages);
      if activeCount > 0 {
        warningMessage := Some(ActivePagesFirst(activeCount));
        isWarningModalOpen := true;
        return;
      }
      if isProfileConnected {
        warningMessage := Some(ProfileStillActive);
        isWarningModalOpen := true;
      } else {
        isProfileDeleteModalOpen := true;
        asked := true;
      }
    }

    /** `confirmDeleteProfile`: hides the profile card and drops every page. */
    method ConfirmDeleteProfile()
      modifies this`isProfileVisible, this`pages, this`isProfileDeleteModalOpen
      ensures Valid()
      ensures !isProfileVisible && pages == [] && !isProfileDeleteModalOpen
    {
      isProfileVisible := false;
      pages := [];
      isProfileDeleteModalOpen := false;
    }

    /** `requestDeletePage(id)`: ignored for an unknown id, refused for an
        automated page, otherwise asks for confirmation (`asked`). */
    method RequestDeletePage(id: string) returns (asked: bool)
      modifies this`pageToDeleteId, this`isDeletePageModalOpen, this`warningMessage, this`isWarningModalOpen
      ensures FindIndex(pages, IdIs(id)).None? ==>
        !asked && pageToDeleteId == old(pageToDeleteId) && isDeletePageModalOpen == old(isDeletePageModalOpen)
        && warningMessage == old(warningMessage) && isWarningModalOpen == old(isWarningModalOpen)
      ensures FindIndex(pages, IdIs(id)).Some? ==>
        var first := pages[FindIndex(pages, IdIs(id)).value];
        if first.automationEnabled then
          !asked && warningMessage == Some(PageStillActive) && isWarningModalOpen
          && pageToDeleteId == old(pageToDeleteId) && isDeletePageModalOpen == old(isDeletePageModalOpen)
        else
          asked && pageToDeleteId == Some(id) && isDeletePageModalOpen
          && warningMessage == old(warningMessage) && isWarningModalOpen == old(isWarningModalOpen)
    {
      asked := false;
      var k := FindIndex(pages, IdIs(id));
      if k.None? {
        return;
      }
      if pages[k.value].automationEnabled {
        warningMessage := Some(PageStillActive);
        isWarningModalOpen := true;
        return;
      }
      pageToDeleteId := Some(id);
      isDeletePageModalOpen := true;
      asked := true;
    }

    /** `confirmDeletePage`: removes every page with the recorded id. */
    method ConfirmDeletePage()
      requires Valid()
      modifies this`pages, this`pageToDeleteId, this`isDeletePageModalOpen
      ensures Valid() && !isDeletePageModalOpen
      ensures Truthy(old(pageToDeleteId)) ==> pages == WithoutPage(old(pages), old(pageToDeleteId).value) && pageToDeleteId == None
      ensures !Truthy(old(pageToDeleteId)) ==> pages == old(pages) && pageToDeleteId == old(pageToDeleteId)
    {
      if Truthy(pageToDeleteId) {
        if !isProfileConnected {
          RemovalKeepsNoneAutomated(pages, pageToDeleteId.value);
        }
        pages := WithoutPage(pages, pageToDeleteId.value);
        pageToDeleteId := None;
      }
      isDeletePageModalOpen := false;
    }
  }

  /** Switching the profile off through the confirmation dialog, right after the
      request succeeded, keeps every page unautomated. */
  method TurnProfileOff(d: DashboardView) returns (off: bool)
    requires d.Valid()
    modifies d`isProfileConnected, d`isProfileToggleModalOpen, d`warningMessage, d`isWarningModalOpen
    ensures d.Valid()
    ensures off <==> old(d.isProfileConnected) && ActivePageCount(d.pages) == 0
    ensures off ==> !d.isProfileConnected
  {
    off := d.ProfileToggle();
    if off {
      d.ConfirmProfileTurnOff();
    }
  }
}

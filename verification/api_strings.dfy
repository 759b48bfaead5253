/**
 * The enum-to-name functions of the border router's API strings. Each argument is the raw
 * value of an OpenThread enum, so that a value outside the enumerators can be passed, as C++
 * allows; each function then returns the empty string its result starts as.
 */
module ApiStrings {

  // otDeviceRole and the OTBR_ROLE_NAME_* constants
  const DeviceRoleDisabled: int := 0
  const DeviceRoleDetached: int := 1
  const DeviceRoleChild: int := 2
  const DeviceRoleRouter: int := 3
  const DeviceRoleLeader: int := 4

  const RoleNameDisabled: string := "disabled"
  const RoleNameDetached: string := "detached"
  const RoleNameChild: string := "child"
  const RoleNameRouter: string := "router"
  const RoleNameLeader: string := "leader"

  // otBorderRoutingDhcp6PdState and the OTBR_DHCP6_PD_STATE_NAME_* constants
  const Dhcp6PdStateDisabled: int := 0
  const Dhcp6PdStateStopped: int := 1
  const Dhcp6PdStateRunning: int := 2

  const Dhcp6PdStateNameDisabled: string := "disabled"
  const Dhcp6PdStateNameStopped: string := "stopped"
  const Dhcp6PdStateNameRunning: string := "running"

  // otCommissionerState and the OTBR_COMMISSIONER_STATE_NAME_* constants
  const CommissionerStateDisabled: int := 0
  const CommissionerStatePetition: int := 1
  const CommissionerStateActive: int := 2

  const CommissionerStateNameDisabled: string := "disabled"
  const CommissionerStateNamePetition: string := "petitioning"
  const CommissionerStateNameActive: string := "active"

  // otSrpServerState and the OTBR_SRP_SERVER_STATE_NAME_* constants
  const SrpServerStateDisabled: int := 0
  const SrpServerStateRunning: int := 1
  const SrpServerStateStopped: int := 2

  const SrpServerStateNameDisabled: string := "disabled"
  const SrpServerStateNameRunning: string := "running"
  const SrpServerStateNameStopped: string := "stopped"

  // otSrpClientItemState and the OTBR_SRP_CLIENT_ITEM_STATE_NAME_* constants
  const SrpItemToAdd: int := 0
  const SrpItemAdding: int := 1
  const SrpItemToRefresh: int := 2
  const SrpItemRefreshing: int := 3
  const SrpItemToRemove: int := 4
  const SrpItemRemoving: int := 5
  const SrpItemRegistered: int := 6
  const SrpItemRemoved: int := 7

  const SrpItemNameToAdd: string := "toAdd"
  const SrpItemNameAdding: string := "adding"
  const SrpItemNameToRefresh: string := "toRefresh"
  const SrpItemNameRefreshing: string := "refreshing"
  const SrpItemNameToRemove: string := "toRemove"
  const SrpItemNameRemoving: string := "removing"
  const SrpItemNameRegistered: string := "registered"
  const SrpItemNameRemoved: string := "removed"

  /**
   * The enumerators' names listed by enumerator value (the OpenThread enums above number their
   * enumerators from 0 without gaps); a reference for the switch statements below.
   */
  const RoleNames: seq<string> :=
    [RoleNameDisabled, RoleNameDetached, RoleNameChild, RoleNameRouter, RoleNameLeader]
  const Dhcp6PdStateNames: seq<string> :=
    [Dhcp6PdStateNameDisabled, Dhcp6PdStateNameStopped, Dhcp6PdStateNameRunning]
  const CommissionerStateNames: seq<string> :=
    [CommissionerStateNameDisabled, CommissionerStateNamePetition, CommissionerStateNameActive]
  const SrpServerStateNames: seq<string> :=
    [SrpServerStateNameDisabled, SrpServerStateNameRunning, SrpServerStateNameStopped]
  const SrpClientItemStateNames: seq<string> :=
    [SrpItemNameToAdd, SrpItemNameAdding, SrpItemNameToRefresh, SrpItemNameRefreshing,
     SrpItemNameToRemove, SrpItemNameRemoving, SrpItemNameRegistered, SrpItemNameRemoved]

  /** A name table in which every enumerator has its own non-empty name. */
  ghost predicate DistinctNames(names: seq<string>) {
    && (forall i :: 0 <= i < |names| ==> names[i] != "")
    && (forall i, j :: 0 <= i < j < |names| ==> names[i] != names[j])
  }

  /** The switch's outcome: the enumerator's name, or the empty string for any other value. */
  ghost predicate NamedBy(names: seq<string>, v: int, name: string) {
    name == if 0 <= v < |names| then names[v] else ""
  }

  function GetDeviceRoleName(role: int): (name: string)
    ensures NamedBy(RoleNames, role, name)
  {
    if role == DeviceRoleDisabled then RoleNameDisabled
    else if role == DeviceRoleDetached then RoleNameDetached
    else if role == DeviceRoleChild then RoleNameChild
    else if role == DeviceRoleRouter then RoleNameRouter
    else if role == DeviceRoleLeader then RoleNameLeader
    else ""
  }

  function GetDhcp6PdStateName(state: int): (name: string)
    ensures NamedBy(Dhcp6PdStateNames, state, name)
  {
    if state == Dhcp6PdStateDisabled then Dhcp6PdStateNameDisabled
    else if state == Dhcp6PdStateStopped then Dhcp6PdStateNameStopped
    else if state == Dhcp6PdStateRunning then Dhcp6PdStateNameRunning
    else ""
  }

  function GetCommissionerStateName(state: int): (name: string)
    ensures NamedBy(CommissionerStateNames, state, name)
  {
    if state == CommissionerStateDisabled then CommissionerStateNameDisabled
    else if state == CommissionerStatePetition then CommissionerStateNamePetition
    else if state == CommissionerStateActive then CommissionerStateNameActive
    else ""
  }

  function GetSrpServerStateName(state: int): (name: string)
    ensures NamedBy(SrpServerStateNames, state, name)
  {
    if state == SrpServerStateDisabled then SrpServerStateNameDisabled
    else if state == SrpServerStateRunning then SrpServerStateNameRunning
    else if state == SrpServerStateStopped then SrpServerStateNameStopped
    else ""
  }

  function GetSrpClientItemStateName(state: int): (name: string)
    ensures NamedBy(SrpClientItemStateNames, state, name)
  {
    if state == SrpItemToAdd then SrpItemNameToAdd
    else if state == SrpItemAdding then SrpItemNameAdding
    else if state == SrpItemToRefresh then SrpItemNameToRefresh
    else if state == SrpItemRefreshing then SrpItemNameRefreshing
    else if state == SrpItemToRemove then SrpItemNameToRemove
    else if state == SrpItemRemoving then SrpItemNameRemoving
    else if state == SrpItemRegistered then SrpItemNameRegistered
    else if state == SrpItemRemoved then SrpItemNameRemoved
    else ""
  }

  /** Each table gives every enumerator a distinct non-empty name. */
  lemma RoleNamesDistinct()
    ensures DistinctNames(RoleNames)
  {
  }

  lemma Dhcp6PdStateNamesDistinct()
    ensures DistinctNames(Dhcp6PdStateNames)
  {
  }

  lemma CommissionerStateNamesDistinct()
    ensures DistinctNames(CommissionerStateNames)
  {
  }

  lemma SrpServerStateNamesDistinct()
    ensures DistinctNames(SrpServerStateNames)
  {
  }

  lemma SrpClientItemStateNamesDistinct()
    ensures DistinctNames(SrpClientItemStateNames)
  {
  }

  /** A non-empty name identifies the value it was produced from, and only enumerators get one. */
  lemma NameIdentifiesValue(names: seq<string>, v: int, w: int, name: string)
    requires DistinctNames(names)
    requires NamedBy(names, v, name) && NamedBy(names, w, name)
    ensures name != "" <==> 0 <= v < |names|
    ensures name != "" ==> v == w
  {
  }

  /** Distinct roles are reported under distinct names. */
  lemma DeviceRoleNameInjective(a: int, b: int)
    requires GetDeviceRoleName(a) == GetDeviceRoleName(b) != ""
    ensures a == b
  {
    RoleNamesDistinct();
    NameIdentifiesValue(RoleNames, a, b, GetDeviceRoleName(a));
  }

  lemma Dhcp6PdStateNameInjective(a: int, b: int)
    requires GetDhcp6PdStateName(a) == GetDhcp6PdStateName(b) != ""
    ensures a == b
  {
    Dhcp6PdStateNamesDistinct();
    NameIdentifiesValue(Dhcp6PdStateNames, a, b, GetDhcp6PdStateName(a));
  }

  lemma CommissionerStateNameInjective(a: int, b: int)
    requires GetCommissionerStateName(a) == GetCommissionerStateName(b) != ""
    ensures a == b
  {
    CommissionerStateNamesDistinct();
    NameIdentifiesValue(CommissionerStateNames, a, b, GetCommissionerStateName(a));
  }

  lemma SrpServerStateNameInjective(a: int, b: int)
    requires GetSrpServerStateName(a) == GetSrpServerStateName(b) != ""
    ensures a == b
  {
    SrpServerStateNamesDistinct();
    NameIdentifiesValue(SrpServerStateNames, a, b, GetSrpServerStateName(a));
  }

  lemma SrpClientItemStateNameInjective(a: int, b: int)
    requires GetSrpClientItemStateName(a) == GetSrpClientItemStateName(b) != ""
    ensures a == b
  {
    SrpClientItemStateNamesDistinct();
    NameIdentifiesValue(SrpClientItemStateNames, a, b, GetSrpClientItemStateName(a));
  }
}

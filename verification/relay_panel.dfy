// The relay panel (gui/widgets/relay_panel.py): one checkable button per relay of
// the two relay modules, laid out four to a row in relay-id order, all disabled
// until the relay module connects. The Qt buttons are values in a list the panel
// updates; the relay client's calls are recorded in a call log, and whether
// set_all_relays raised is a parameter.

module RelayPanel {
  import opened Dict
  import opened KeyOrder

  /** A relay's configuration entry: the button shows its name. */
  datatype RelayInfo = RelayInfo(name: string)

  /** The state of one QPushButton that the panel reads or writes. */
  datatype Button = Button(relayId: string, text: string, checkable: bool, enabled: bool,
                           checked: bool, row: nat, col: nat)

  /** The calls made to the relay client. */
  datatype RelayCall = SetRelay(relayId: string, state: bool) | SetAllRelays(state: bool)

  /** The grid cell of the idx-th button: four columns. */
  function Cell(idx: nat): (rc: (nat, nat))
    ensures rc.1 < 4 && rc.0 * 4 + rc.1 == idx
  {
    (idx / 4, idx % 4)
  }

  /** Different positions get different cells. */
  lemma CellsDistinct(i: nat, j: nat)
    requires i != j
    ensures Cell(i) != Cell(j)
  {
  }

  /** `all_relays = {}; update(slot_2); update(slot_3)`. */
  function AllRelays(slot2: Dict<RelayInfo>, slot3: Dict<RelayInfo>): Dict<RelayInfo> {
    Update(Update([], slot2), slot3)
  }

  /** A relay listed in slot 3 takes slot 3's entry; any other keeps slot 2's. Every relay is listed once. */
  lemma SlotOverride(slot2: Dict<RelayInfo>, slot3: Dict<RelayInfo>, id: string)
    requires UniqueKeys(slot2) && UniqueKeys(slot3)
    ensures Get(AllRelays(slot2, slot3), id) == if id in Keys(slot3) then Get(slot3, id) else Get(slot2, id)
    ensures Keys(AllRelays(slot2, slot3)) == Keys(slot2) + Keys(slot3)
    ensures UniqueKeys(AllRelays(slot2, slot3))
  {
    UpdateGet(Update([], slot2), slot3, id);
    UpdateGet([], slot2, id);
    UpdateKeys([], slot2);
    UpdateKeys(Update([], slot2), slot3);
  }

  /** The button made for the idx-th relay in id order: checkable, disabled, unchecked, in its cell. */
  function ButtonFor(idx: nat, relay: (string, RelayInfo)): (b: Button)
    ensures b.relayId == relay.0 && b.text == relay.1.name
    ensures b.checkable && !b.enabled && !b.checked && (b.row, b.col) == Cell(idx)
  {
    Button(relay.0, relay.1.name, true, false, false, idx / 4, idx % 4)
  }

  /** The buttons of a sorted relay list, one per entry. */
  function ButtonsFor(sorted: Dict<RelayInfo>): (bs: seq<Button>)
    ensures |bs| == |sorted|
  {
    seq(|sorted|, i requires 0 <= i < |sorted| => ButtonFor(i, sorted[i]))
  }

  /**
   * The buttons of a panel: in ascending, distinct relay-id order, each relay of
   * either slot once, each in a cell of its own, all checkable and disabled.
   */
  lemma Layout(slot2: Dict<RelayInfo>, slot3: Dict<RelayInfo>)
    requires UniqueKeys(slot2) && UniqueKeys(slot3)
    ensures var bs := ButtonsFor(SortByKey(AllRelays(slot2, slot3)));
      (forall i, j :: 0 <= i < j < |bs| ==>
        StrLeq(bs[i].relayId, bs[j].relayId) && bs[i].relayId != bs[j].relayId &&
        (bs[i].row, bs[i].col) != (bs[j].row, bs[j].col)) &&
      (forall i :: 0 <= i < |bs| ==> bs[i].checkable && !bs[i].enabled) &&
      (set i | 0 <= i < |bs| :: bs[i].relayId) == Keys(slot2) + Keys(slot3)
  {
    var all := AllRelays(slot2, slot3);
    SlotOverride(slot2, slot3, "");
    SortByKeyKeys(all);
    ButtonsOrdered(SortByKey(all));
    ButtonIds(SortByKey(all));
  }

  lemma ButtonsOrdered(sorted: Dict<RelayInfo>)
    requires forall i, j :: 0 <= i < j < |sorted| ==> StrLeq(sorted[i].0, sorted[j].0) && sorted[i].0 != sorted[j].0
    ensures var bs := ButtonsFor(sorted);
      (forall i, j :: 0 <= i < j < |bs| ==>
        StrLeq(bs[i].relayId, bs[j].relayId) && bs[i].relayId != bs[j].relayId &&
        (bs[i].row, bs[i].col) != (bs[j].row, bs[j].col)) &&
      (forall i :: 0 <= i < |bs| ==> bs[i].checkable && !bs[i].enabled)
  {
    var bs := ButtonsFor(sorted);
    forall i, j | 0 <= i < j < |bs| ensures (bs[i].row, bs[i].col) != (bs[j].row, bs[j].col) {
      CellsDistinct(i, j);
    }
  }

  lemma ButtonIds(sorted: Dict<RelayInfo>)
    ensures (set i | 0 <= i < |ButtonsFor(sorted)| :: ButtonsFor(sorted)[i].relayId) == Keys(sorted)
  {
    var bs := ButtonsFor(sorted);
    forall x | x in Keys(sorted) ensures x in (set i | 0 <= i < |bs| :: bs[i].relayId) {
      var i :| 0 <= i < |sorted| && sorted[i].0 == x;
      assert bs[i].relayId == x;
    }
  }

  class Panel {
    var buttons: seq<Button>
    var calls: seq<RelayCall>

    constructor (slot2: Dict<RelayInfo>, slot3: Dict<RelayInfo>)
      ensures buttons == ButtonsFor(SortByKey(AllRelays(slot2, slot3))) && calls == []
    {
      var bs := CreateRelayGroup(AllRelays(slot2, slot3));
      buttons := bs;
      calls := [];
    }

    /** `_create_relay_group`: the relays sorted by id, one button each in turn. */
    static method CreateRelayGroup(relays: Dict<RelayInfo>) returns (bs: seq<Button>)
      ensures bs == ButtonsFor(SortByKey(relays))
    {
      var sorted := SortByKey(relays);
      bs := [];
      for idx := 0 to |sorted|
        invariant bs == ButtonsFor(sorted[..idx])
      {
        bs := bs + [ButtonFor(idx, sorted[idx])];
      }
      assert sorted[..|sorted|] == sorted;
    }

    /** Every button's enabled flag becomes `available`; nothing else changes. */
    method SetHardwareAvailable(available: bool)
      modifies this`buttons
      ensures |buttons| == |old(buttons)|
      ensures forall i :: 0 <= i < |buttons| ==> buttons[i] == old(buttons)[i].(enabled := available)
    {
      for i := 0 to |buttons|
        invariant |buttons| == |old(buttons)|
        invariant forall k :: 0 <= k < i ==> buttons[k] == old(buttons)[k].(enabled := available)
        invariant forall k :: i <= k < |buttons| ==> buttons[k] == old(buttons)[k]
      {
        buttons := buttons[i := buttons[i].(enabled := available)];
      }
    }

    /**
     * The safe state: set_all_relays(False) is called; only when it returns are all
     * buttons unchecked, and when it raises they keep their state.
     */
    method SetAllOff(accepted: bool)
      modifies this`buttons, this`calls
      ensures calls == old(calls) + [SetAllRelays(false)]
      ensures |buttons| == |old(buttons)|
      ensures accepted ==> forall i :: 0 <= i < |buttons| ==> buttons[i] == old(buttons)[i].(checked := false)
      ensures !accepted ==> buttons == old(buttons)
    {
      calls := calls + [SetAllRelays(false)];
      if !accepted {
        return;
      }
      for i := 0 to |buttons|
        invariant calls == old(calls) + [SetAllRelays(false)]
        invariant |buttons| == |old(buttons)|
        invariant forall k :: 0 <= k < i ==> buttons[k] == old(buttons)[k].(checked := false)
        invariant forall k :: i <= k < |buttons| ==> buttons[k] == old(buttons)[k]
      {
        buttons := buttons[i := buttons[i].(checked := false)];
      }
    }

    /**
     * A click on button i: a disabled button ignores it; an enabled one toggles its
     * checked state and asks the relay client to set the relay to the new state.
     */
    method Click(i: nat)
      requires i < |buttons|
      modifies this`buttons, this`calls
      ensures !old(buttons)[i].enabled ==> buttons == old(buttons) && calls == old(calls)
      ensures old(buttons)[i].enabled ==>
        buttons == old(buttons)[i := old(buttons)[i].(checked := !old(buttons)[i].checked)] &&
        calls == old(calls) + [SetRelay(old(buttons)[i].relayId, !old(buttons)[i].checked)]
    {
      var b := buttons[i];
      if !b.enabled {
        return;
      }
      buttons := buttons[i := b.(checked := !b.checked)];
      calls := calls + [SetRelay(b.relayId, !b.checked)];
    }
  }

  /** After the relay module goes offline no click reaches a relay. */
  method OfflineIgnoresClicks(p: Panel, i: nat)
    requires i < |p.buttons|
    modifies p
    ensures p.calls == old(p.calls)
  {
    p.SetHardwareAvailable(false);
    p.Click(i);
  }
}

/**
 * The candidate-materials list: a dictionary from `cm_id` to the quantity
 * typed for it, edited by the checkbox and the quantity field, and turned
 * into the body of the `select-product` request.
 */
module CandidateMaterials {
  import opened Common

  /** A stored quantity: the empty string left by clearing the field, or a number. */
  datatype Quantity = Blank | Count(n: int)

  /** JavaScript truthiness of a stored quantity. */
  predicate IsTruthy(q: Quantity)
  {
    q.Count? && q.n != 0
  }

  /** `selectedProducts[cm_id] > 0`; the empty string compares as 0. */
  predicate IsPositive(q: Quantity)
  {
    q.Count? && q.n > 0
  }

  /** Every number in the selection is at least 1. */
  predicate NoZeroQuantity(m: map<string, Quantity>)
  {
    forall k :: k in m && m[k].Count? ==> m[k].n >= 1
  }

  /**
   * `toggleCheckbox`: a product stored with a truthy quantity is removed;
   * any other (absent, or stored as the empty string) is stored with 1.
   */
  function Toggled(m: map<string, Quantity>, cmId: string): (r: map<string, Quantity>)
    ensures cmId in m && IsTruthy(m[cmId]) ==> cmId !in r
    ensures cmId !in m ==> cmId in r && r[cmId] == Count(1)
    ensures cmId in m && m[cmId] == Blank ==> cmId in r && r[cmId] == Count(1)
    ensures forall k :: k != cmId ==> (k in r <==> k in m)
    ensures forall k :: k != cmId && k in r ==> r[k] == m[k]
    ensures NoZeroQuantity(m) ==> NoZeroQuantity(r)
  {
    if cmId in m && IsTruthy(m[cmId]) then m - {cmId} else m[cmId := Count(1)]
  }

  /** `/^\d*$/`: every character is an ASCII digit (the empty string included). */
  predicate AllDigits(s: string)
  {
    forall i :: 0 <= i < |s| ==> '0' <= s[i] <= '9'
  }

  /** `parseInt` of a string of decimal digits. */
  function DigitsValue(s: string): (v: nat)
    requires AllDigits(s)
  {
    if s == [] then 0 else DigitsValue(s[..|s| - 1]) * 10 + (s[|s| - 1] as int - '0' as int)
  }

  /**
   * `handleQuantityChange`: input with a non-digit is ignored; otherwise the
   * product is stored (selected if it was not) with "" for empty text and
   * `max(1, parseInt(value))` for the rest.
   */
  function QuantityEdited(m: map<string, Quantity>, cmId: string, value: string): (r: map<string, Quantity>)
    ensures !AllDigits(value) ==> r == m
    ensures AllDigits(value) ==> cmId in r
    ensures AllDigits(value) && value == "" ==> r[cmId] == Blank
    ensures AllDigits(value) && value != "" ==>
      r[cmId].Count? && r[cmId].n >= 1 && (DigitsValue(value) >= 1 ==> r[cmId].n == DigitsValue(value))
    ensures AllDigits(value) && value != "" && DigitsValue(value) == 0 ==> r[cmId] == Count(1)
    ensures forall k :: k != cmId ==> (k in r <==> k in m)
    ensures forall k :: k != cmId && k in r ==> r[k] == m[k]
    ensures NoZeroQuantity(m) ==> NoZeroQuantity(r)
  {
    if !AllDigits(value) then m
    else if value == "" then m[cmId := Blank]
    else
      var parsed := DigitsValue(value);
      m[cmId := Count(if parsed >= 1 then parsed else 1)]
  }

  predicate OnlyZeros(s: string)
  {
    forall i :: 0 <= i < |s| ==> s[i] == '0'
  }

  /** A string of zeros, of any length, has the value 0. */
  lemma {:induction false} ZerosValue(s: string)
    requires OnlyZeros(s)
    ensures DigitsValue(s) == 0
    decreases |s|
  {
    if s != [] {
      ZerosValue(s[..|s| - 1]);
    }
  }

  /** Typing "0", or any number of zeros, stores 1 rather than 0. */
  lemma ZerosStoreOne(m: map<string, Quantity>, cmId: string, value: string)
    requires value != "" && OnlyZeros(value)
    ensures QuantityEdited(m, cmId, value)[cmId] == Count(1)
  {
    ZerosValue(value);
  }

  /** Leading zeros are dropped: "007" stores 7. */
  lemma LeadingZerosDropped(m: map<string, Quantity>, cmId: string)
    ensures QuantityEdited(m, cmId, "007")[cmId] == Count(7)
  {
    assert "007"[..2] == "00" && "00"[..1] == "0" && "0"[..0] == "";
    assert DigitsValue("007") == 7;
  }

  /** `keys` is `Object.keys(m)`: every key of `m` once, in some order. */
  predicate IsKeyOrder(keys: seq<string>, m: map<string, Quantity>)
  {
    Distinct(keys) && (forall k :: k in keys ==> k in m) && (forall k :: k in m ==> k in keys)
  }

  /** `Object.keys(selectedProducts).filter((cm_id) => selectedProducts[cm_id] > 0)`. */
  function PositiveIds(m: map<string, Quantity>, keys: seq<string>): (ids: seq<string>)
    requires IsKeyOrder(keys, m)
    ensures IsSubsequence(ids, keys) && Distinct(ids)
    ensures forall k :: k in ids <==> k in m && IsPositive(m[k])
  {
    Filter(keys, k => k in m && IsPositive(m[k]))
  }

  /** `showModal`: the order dialog may open iff some product has a quantity above 0. */
  lemma {:induction false} CanOrderIffSomePositive(m: map<string, Quantity>, keys: seq<string>)
    requires IsKeyOrder(keys, m)
    ensures PositiveIds(m, keys) != [] <==> exists k :: k in m && IsPositive(m[k])
  {
    var ids := PositiveIds(m, keys);
    if ids != [] {
      assert ids[0] in ids;
    }
    if exists k :: k in m && IsPositive(m[k]) {
      var k :| k in m && IsPositive(m[k]);
      assert k in ids;
    }
  }

  /** One element of `product` in the request body. */
  datatype ProductLine = ProductLine(cmId: string, quantity: int, ccId: string)

  /** `selected.map((cm_id) => ({ cm_id, quantity: selectedProducts[cm_id], cc_id: cc_id.key }))`. */
  function ProductLines(m: map<string, Quantity>, ids: seq<string>, ccKey: string): (lines: seq<ProductLine>)
    requires forall i :: 0 <= i < |ids| ==> ids[i] in m && m[ids[i]].Count?
    ensures |lines| == |ids|
    ensures forall i :: 0 <= i < |ids| ==> lines[i] == ProductLine(ids[i], m[ids[i]].n, ccKey)
  {
    if ids == [] then []
    else [ProductLine(ids[0], m[ids[0]].n, ccKey)] + ProductLines(m, ids[1..], ccKey)
  }

  /** The two choices of the order dialog. */
  datatype OrderOption = Option1 | Option2

  /** The body of the `select-product` request. */
  datatype OrderRequest = OrderRequest(
    product: seq<ProductLine>, postUserId: Option<string>, variableOrder: bool, orderType: bool)

  /** The request `handleConfirm` sends for a selection whose positive ids are `ids`. */
  function OrderRequestOf(
    m: map<string, Quantity>, keys: seq<string>, ccKey: string,
    postUserId: Option<string>, option: OrderOption): (r: OrderRequest)
    requires IsKeyOrder(keys, m)
    ensures |r.product| == |PositiveIds(m, keys)|
    ensures forall i :: 0 <= i < |r.product| ==>
      && r.product[i].cmId == PositiveIds(m, keys)[i]
      && r.product[i].quantity == m[r.product[i].cmId].n
      && r.product[i].ccId == ccKey
    ensures r.postUserId == postUserId
    ensures r.variableOrder == (option == Option2) && r.orderType == (option == Option1)
  {
    var ids := PositiveIds(m, keys);
    assert forall i :: 0 <= i < |ids| ==> ids[i] in ids;
    OrderRequest(ProductLines(m, ids, ccKey), postUserId, option == Option2, option == Option1)
  }

  /**
   * The request carries exactly one line per product with a quantity above 0,
   * and every line's quantity is above 0.
   */
  lemma {:induction false} OneLinePerPositiveProduct(
    m: map<string, Quantity>, keys: seq<string>, ccKey: string,
    postUserId: Option<string>, option: OrderOption)
    requires IsKeyOrder(keys, m)
    ensures var lines := OrderRequestOf(m, keys, ccKey, postUserId, option).product;
      && (forall i, j :: 0 <= i < j < |lines| ==> lines[i].cmId != lines[j].cmId)
      && (forall i :: 0 <= i < |lines| ==> lines[i].quantity > 0)
      && (forall k :: k in m && IsPositive(m[k]) <==> exists i :: 0 <= i < |lines| && lines[i].cmId == k)
  {
    var ids := PositiveIds(m, keys);
    var lines := OrderRequestOf(m, keys, ccKey, postUserId, option).product;
    forall i | 0 <= i < |lines|
      ensures lines[i].quantity > 0
    {
      assert ids[i] in ids;
    }
    forall k
      ensures k in m && IsPositive(m[k]) <==> exists i :: 0 <= i < |lines| && lines[i].cmId == k
    {
      if k in m && IsPositive(m[k]) {
        assert k in ids;
        var i :| 0 <= i < |ids| && ids[i] == k;
        assert lines[i].cmId == k;
      }
    }
  }

  /** For both dialog options, `order_type` and `variable_order` are each other's negation. */
  lemma OrderKindsExclusive(
    m: map<string, Quantity>, keys: seq<string>, ccKey: string,
    postUserId: Option<string>, option: OrderOption)
    requires IsKeyOrder(keys, m)
    ensures var r := OrderRequestOf(m, keys, ccKey, postUserId, option);
      r.variableOrder == !r.orderType
  {
  }

  /** The state of the candidate-materials screen. */
  class ProductList {
    var selected: map<string, Quantity>
    var modalVisible: bool
    var option: OrderOption

    ghost predicate Valid()
      reads this
    {
      NoZeroQuantity(selected)
    }

    constructor ()
      ensures Valid() && selected == map[] && !modalVisible && option == Option1
    {
      selected, modalVisible, option := map[], false, Option1;
    }

    method ToggleCheckbox(cmId: string)
      requires Valid()
      modifies this`selected
      ensures Valid() && selected == Toggled(old(selected), cmId)
    {
      selected := Toggled(selected, cmId);
    }

    method HandleQuantityChange(cmId: string, value: string)
      requires Valid()
      modifies this`selected
      ensures Valid() && selected == QuantityEdited(old(selected), cmId, value)
    {
      selected := QuantityEdited(selected, cmId, value);
    }

    method SelectOption(choice: OrderOption)
      modifies this`option
      ensures option == choice
    {
      option := choice;
    }

    /** `showModal`: opens the dialog iff some quantity is above 0, and otherwise only alerts. */
    method ShowModal(keys: seq<string>) returns (alerted: bool)
      requires IsKeyOrder(keys, selected)
      modifies this`modalVisible
      ensures alerted <==> !exists k :: k in selected && IsPositive(selected[k])
      ensures modalVisible == if alerted then old(modalVisible) else true
    {
      var ids := PositiveIds(selected, keys);
      CanOrderIffSomePositive(selected, keys);
      alerted := ids == [];
      if !alerted {
        modalVisible := true;
      }
      assert selected == old(selected);
    }

    /**
     * `handleConfirm`: with no quantity above 0 nothing is sent; otherwise the
     * request is sent and the dialog is closed, whatever the outcome of the POST.
     */
    method HandleConfirm(keys: seq<string>, ccKey: string, postUserId: Option<string>)
      returns (sent: Option<OrderRequest>)
      requires IsKeyOrder(keys, selected)
      modifies this`modalVisible
      ensures sent.None? <==> PositiveIds(selected, keys) == []
      ensures sent.Some? ==> sent.value == OrderRequestOf(selected, keys, ccKey, postUserId, option)
      ensures modalVisible == if sent.Some? then false else old(modalVisible)
    {
      var ids := PositiveIds(selected, keys);
      if |ids| > 0 {
        sent := Some(OrderRequestOf(selected, keys, ccKey, postUserId, option));
        modalVisible := false;
      } else {
        sent := None;
      }
    }
  }
}

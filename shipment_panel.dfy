/**
 * The shipment editor: an edit buffer of transporter, vehicle and route legs,
 * the handlers that change it, the derived total weight, the ordered submit
 * validation and the flattened payload handed to the save callback.
 */
module ShipmentPanel {
  import opened Wrappers
  import opened JsValues
  import opened ShipmentTypes

  // ------------------------------------------------------------- opening

  /** The leg a new shipment starts with and that "add route" appends. */
  const EmptyLeg: Route := Route(None, Int(0), Int(0), None, None, [])

  /** `shipment.routes || []`. */
  function StoredRoutes(s: Shipment): seq<StoredRoute>
  {
    match s.routes
    case None => []
    case Some(rs) => rs
  }

  /** `r.materials || []`. */
  function StoredMaterials(r: StoredRoute): seq<Material>
  {
    match r.materials
    case None => []
    case Some(ms) => ms
  }

  /** The buffer entry for one stored leg; its material lines are copied by value. */
  function BufferLeg(r: StoredRoute): Route
  {
    Route(r.id, Int(r.sourceId), Int(r.destId), r.source, r.destination, StoredMaterials(r))
  }

  /** The `map` over the stored legs: one buffer leg per stored leg, in the same order. */
  function BufferLegs(rs: seq<StoredRoute>): (legs: seq<Route>)
    ensures |legs| == |rs|
    ensures forall i :: 0 <= i < |rs| ==>
      legs[i].id == rs[i].id &&
      legs[i].sourceId == Int(rs[i].sourceId) && legs[i].destId == Int(rs[i].destId) &&
      legs[i].source == rs[i].source && legs[i].destination == rs[i].destination &&
      legs[i].materials == StoredMaterials(rs[i])
  {
    if |rs| == 0 then [] else [BufferLeg(rs[0])] + BufferLegs(rs[1..])
  }

  // -------------------------------------------------------- total weight

  /** `Number(m.quantity) || 0`: NaN counts as nothing. */
  function QuantityWeight(q: JsNumber): int
  {
    match q
    case Int(v) => v
    case NaN => 0
  }

  /** The inner `reduce`: the running weight plus each quantity, left to right; it adds the lines' sum. */
  function MaterialsWeight(w: int, ms: seq<Material>): (r: int)
    ensures r == w + SumOfQuantities(ms)
    decreases |ms|
  {
    if |ms| == 0 then w else MaterialsWeight(w + QuantityWeight(ms[0].quantity), ms[1..])
  }

  /**
   * The outer `reduce`: the running total plus each leg's weight, left to
   * right; it adds the sum of all lines of all legs.
   */
  function RoutesWeight(total: int, legs: seq<Route>): (r: int)
    ensures r == total + SumOfQuantities(AllMaterials(legs))
    decreases |legs|
  {
    if |legs| == 0 then total
    else
      SumAppend(legs[0].materials, AllMaterials(legs[1..]));
      RoutesWeight(total + MaterialsWeight(0, legs[0].materials), legs[1..])
  }

  /** `totalWeight`: the sum of every material quantity over every leg, NaN counting as 0. */
  function TotalWeight(legs: seq<Route>): (w: int)
    ensures w == SumOfQuantities(AllMaterials(legs))
  {
    RoutesWeight(0, legs)
  }

  /** Reference definition: the sum of the quantities of a list of lines. */
  function SumOfQuantities(ms: seq<Material>): int
    decreases |ms|
  {
    if |ms| == 0 then 0 else QuantityWeight(ms[0].quantity) + SumOfQuantities(ms[1..])
  }

  /** Every material line of every leg, leg by leg. */
  function AllMaterials(legs: seq<Route>): seq<Material>
    decreases |legs|
  {
    if |legs| == 0 then [] else legs[0].materials + AllMaterials(legs[1..])
  }

  lemma {:induction false} SumAppend(a: seq<Material>, b: seq<Material>)
    ensures SumOfQuantities(a + b) == SumOfQuantities(a) + SumOfQuantities(b)
    decreases |a|
  {
    if |a| == 0 {
      assert a + b == b;
    } else {
      assert (a + b)[1..] == a[1..] + b;
      SumAppend(a[1..], b);
    }
  }

  lemma {:induction false} AllMaterialsAppend(a: seq<Route>, b: seq<Route>)
    ensures AllMaterials(a + b) == AllMaterials(a) + AllMaterials(b)
    decreases |a|
  {
    if |a| == 0 {
      assert a + b == b;
    } else {
      assert (a + b)[1..] == a[1..] + b;
      AllMaterialsAppend(a[1..], b);
    }
  }

  /** Replacing one leg changes the total by the difference of the two legs' weights. */
  lemma TotalWeightReplaceLeg(legs: seq<Route>, i: nat, leg: Route)
    requires i < |legs|
    ensures TotalWeight(legs[i := leg]) ==
      TotalWeight(legs) - SumOfQuantities(legs[i].materials) + SumOfQuantities(leg.materials)
  {
    var before, after := legs[..i], legs[i + 1..];
    assert legs == before + [legs[i]] + after;
    assert legs[i := leg] == before + [leg] + after;
    AllMaterialsAppend(before + [legs[i]], after);
    AllMaterialsAppend(before, [legs[i]]);
    AllMaterialsAppend(before + [leg], after);
    AllMaterialsAppend(before, [leg]);
    assert AllMaterials([legs[i]]) == legs[i].materials;
    assert AllMaterials([leg]) == leg.materials;
    SumAppend(AllMaterials(before) + legs[i].materials, AllMaterials(after));
    SumAppend(AllMaterials(before), legs[i].materials);
    SumAppend(AllMaterials(before) + leg.materials, AllMaterials(after));
    SumAppend(AllMaterials(before), leg.materials);
  }

  /** Removing one leg takes exactly that leg's weight off the total. */
  lemma TotalWeightRemoveLeg(legs: seq<Route>, i: nat)
    requires i < |legs|
    ensures TotalWeight(legs[..i] + legs[i + 1..]) == TotalWeight(legs) - SumOfQuantities(legs[i].materials)
  {
    var before, after := legs[..i], legs[i + 1..];
    assert legs == before + [legs[i]] + after;
    AllMaterialsAppend(before + [legs[i]], after);
    AllMaterialsAppend(before, [legs[i]]);
    AllMaterialsAppend(before, after);
    assert AllMaterials([legs[i]]) == legs[i].materials;
    SumAppend(AllMaterials(before) + legs[i].materials, AllMaterials(after));
    SumAppend(AllMaterials(before), legs[i].materials);
    SumAppend(AllMaterials(before), AllMaterials(after));
  }

  /** Appending a leg adds that leg's weight; an empty leg adds nothing. */
  lemma TotalWeightAppendLeg(legs: seq<Route>, leg: Route)
    ensures TotalWeight(legs + [leg]) == TotalWeight(legs) + SumOfQuantities(leg.materials)
  {
    AllMaterialsAppend(legs, [leg]);
    assert AllMaterials([leg]) == leg.materials;
    SumAppend(AllMaterials(legs), leg.materials);
  }

  /** Appending a line adds its quantity. */
  lemma SumAppendLine(ms: seq<Material>, m: Material)
    ensures SumOfQuantities(ms + [m]) == SumOfQuantities(ms) + QuantityWeight(m.quantity)
  {
    SumAppend(ms, [m]);
  }

  /** Replacing a line changes the sum by the difference of the two quantities. */
  lemma SumReplaceLine(ms: seq<Material>, j: nat, m: Material)
    requires j < |ms|
    ensures SumOfQuantities(ms[j := m]) ==
      SumOfQuantities(ms) - QuantityWeight(ms[j].quantity) + QuantityWeight(m.quantity)
  {
    var before, after := ms[..j], ms[j + 1..];
    assert ms == before + [ms[j]] + after;
    assert ms[j := m] == before + [m] + after;
    SumAppend(before + [ms[j]], after);
    SumAppend(before, [ms[j]]);
    SumSingle(ms[j]);
    SumAppend(before + [m], after);
    SumAppend(before, [m]);
    SumSingle(m);
  }

  /** Removing a line takes its quantity off the sum. */
  lemma SumRemoveLine(ms: seq<Material>, j: nat)
    requires j < |ms|
    ensures SumOfQuantities(ms[..j] + ms[j + 1..]) == SumOfQuantities(ms) - QuantityWeight(ms[j].quantity)
  {
    var before, after, x := ms[..j], ms[j + 1..], ms[j];
    assert ms == (before + [x]) + after;
    SumAppend(before + [x], after);
    SumAppend(before, [x]);
    SumSingle(x);
    SumAppend(before, after);
  }

  lemma SumSingle(m: Material)
    ensures SumOfQuantities([m]) == QuantityWeight(m.quantity)
  {
    assert [m][1..] == [];
  }

  // ------------------------------------------------------------ materials

  /** `materials.find(m => m.value === value)`, as the index of the first match. */
  function FindChoice(options: seq<Choice>, value: string): (r: Option<nat>)
    ensures r.Some? ==> r.value < |options| && options[r.value].value == value
    ensures r.Some? ==> forall j :: 0 <= j < r.value ==> options[j].value != value
    ensures r.None? ==> forall j :: 0 <= j < |options| ==> options[j].value != value
    decreases |options|
  {
    if |options| == 0 then None
    else if options[0].value == value then Some(0)
    else
      match FindChoice(options[1..], value)
      case None => None
      case Some(k) => Some(k + 1)
  }

  // ------------------------------------------------------------ validation

  /** `!n` for a number: 0 and NaN are unset. */
  predicate Unset(n: JsNumber)
  {
    !(n.Int? && n.value != 0)
  }

  /** `routes.some(r => !r.sourceId || !r.destId)`. */
  function SomeLegWithoutEndpoints(legs: seq<Route>): (b: bool)
    ensures b <==> exists i :: 0 <= i < |legs| && (Unset(legs[i].sourceId) || Unset(legs[i].destId))
    decreases |legs|
  {
    if |legs| == 0 then false
    else
      var rest := SomeLegWithoutEndpoints(legs[1..]);
      assert forall i :: 0 < i < |legs| ==> legs[i] == legs[1..][i - 1];
      Unset(legs[0].sourceId) || Unset(legs[0].destId) || rest
  }

  /** `routes.some(r => r.materials.length === 0)`. */
  function SomeLegWithoutMaterials(legs: seq<Route>): (b: bool)
    ensures b <==> exists i :: 0 <= i < |legs| && |legs[i].materials| == 0
    decreases |legs|
  {
    if |legs| == 0 then false
    else
      var rest := SomeLegWithoutMaterials(legs[1..]);
      assert forall i :: 0 < i < |legs| ==> legs[i] == legs[1..][i - 1];
      |legs[0].materials| == 0 || rest
  }

  datatype ValidationError =
    | MissingTransporterOrVehicle
    | MissingEndpoints
    | MissingMaterials

  /**
   * The checks of `handleSubmit`, in order, the first failure winning:
   * both selections made, then every leg's endpoints, then every leg's materials.
   */
  function Validate(transporterId: string, vehicleId: string, legs: seq<Route>): (r: Option<ValidationError>)
    ensures r == Some(MissingTransporterOrVehicle) <==> transporterId == "" || vehicleId == ""
    ensures r == Some(MissingEndpoints) <==>
      transporterId != "" && vehicleId != "" &&
      exists i :: 0 <= i < |legs| && (Unset(legs[i].sourceId) || Unset(legs[i].destId))
    ensures r == Some(MissingMaterials) <==>
      transporterId != "" && vehicleId != "" &&
      (forall i :: 0 <= i < |legs| ==> !Unset(legs[i].sourceId) && !Unset(legs[i].destId)) &&
      exists i :: 0 <= i < |legs| && |legs[i].materials| == 0
    ensures r == None <==>
      transporterId != "" && vehicleId != "" &&
      forall i :: 0 <= i < |legs| ==>
        !Unset(legs[i].sourceId) && !Unset(legs[i].destId) && |legs[i].materials| > 0
  {
    if transporterId == "" || vehicleId == "" then Some(MissingTransporterOrVehicle)
    else if SomeLegWithoutEndpoints(legs) then Some(MissingEndpoints)
    else if SomeLegWithoutMaterials(legs) then Some(MissingMaterials)
    else None
  }

  // --------------------------------------------------------------- payload

  datatype MaterialLine = MaterialLine(materialId: JsNumber, quantity: JsNumber)
  datatype RoutePair = RoutePair(sourceId: JsNumber, destId: JsNumber, materials: seq<MaterialLine>)
  datatype Payload = Payload(transporterId: JsNumber, vehicleId: JsNumber, routePairs: seq<RoutePair>)

  /** `r.materials.map(m => ({ materialId: m.id, quantity: Number(m.quantity) }))`. */
  function LinesOf(ms: seq<Material>): (ls: seq<MaterialLine>)
    ensures |ls| == |ms|
    ensures forall j :: 0 <= j < |ms| ==> ls[j].materialId == ms[j].id && ls[j].quantity == ms[j].quantity
    decreases |ms|
  {
    if |ms| == 0 then [] else [MaterialLine(ms[0].id, ms[0].quantity)] + LinesOf(ms[1..])
  }

  /** `routes.map(...)`: one route pair per leg, in order, names and ids of legs dropped. */
  function PairsOf(legs: seq<Route>): (ps: seq<RoutePair>)
    ensures |ps| == |legs|
    ensures forall i :: 0 <= i < |legs| ==>
      ps[i].sourceId == legs[i].sourceId && ps[i].destId == legs[i].destId &&
      ps[i].materials == LinesOf(legs[i].materials)
    decreases |legs|
  {
    if |legs| == 0 then []
    else [RoutePair(legs[0].sourceId, legs[0].destId, LinesOf(legs[0].materials))] + PairsOf(legs[1..])
  }

  /**
   * The object handed to `onSave`: the ids are `Number(...)` of the selections,
   * one pair per leg with its endpoints and lines, and the quantities sent add
   * up to the total weight the editor shows.
   */
  function BuildPayload(transporterId: string, vehicleId: string, legs: seq<Route>): (p: Payload)
    ensures p.transporterId == ParseNumber(transporterId) && p.vehicleId == ParseNumber(vehicleId)
    ensures |p.routePairs| == |legs|
    ensures forall i :: 0 <= i < |legs| ==>
      p.routePairs[i] == RoutePair(legs[i].sourceId, legs[i].destId, LinesOf(legs[i].materials))
    ensures PairsQuantity(p.routePairs) == TotalWeight(legs)
  {
    PayloadQuantityIsTotalWeight(legs);
    Payload(ParseNumber(transporterId), ParseNumber(vehicleId), PairsOf(legs))
  }

  /** A payload that passed validation has, for every pair, set endpoints and at least one line. */
  lemma ValidPayloadPairs(transporterId: string, vehicleId: string, legs: seq<Route>)
    requires Validate(transporterId, vehicleId, legs) == None
    ensures var p := BuildPayload(transporterId, vehicleId, legs);
      |p.routePairs| == |legs| &&
      forall i :: 0 <= i < |p.routePairs| ==>
        !Unset(p.routePairs[i].sourceId) && !Unset(p.routePairs[i].destId) && |p.routePairs[i].materials| > 0
  {
  }

  /** The sum of `Number(quantity) || 0` over every line of a list of route pairs. */
  function PairsQuantity(ps: seq<RoutePair>): int
    decreases |ps|
  {
    if |ps| == 0 then 0 else LinesQuantity(ps[0].materials) + PairsQuantity(ps[1..])
  }

  function LinesQuantity(ls: seq<MaterialLine>): int
    decreases |ls|
  {
    if |ls| == 0 then 0 else QuantityWeight(ls[0].quantity) + LinesQuantity(ls[1..])
  }

  lemma {:induction false} LinesQuantityIsSum(ms: seq<Material>)
    ensures LinesQuantity(LinesOf(ms)) == SumOfQuantities(ms)
    decreases |ms|
  {
    if |ms| > 0 {
      LinesQuantityIsSum(ms[1..]);
      assert LinesOf(ms)[1..] == LinesOf(ms[1..]);
    }
  }

  /** The quantities sent add up to the total weight the editor displays. */
  lemma {:induction false} PayloadQuantityIsTotalWeight(legs: seq<Route>)
    ensures PairsQuantity(PairsOf(legs)) == TotalWeight(legs)
    decreases |legs|
  {
    if |legs| > 0 {
      PayloadQuantityIsTotalWeight(legs[1..]);
      LinesQuantityIsSum(legs[0].materials);
      SumAppend(legs[0].materials, AllMaterials(legs[1..]));
      assert PairsOf(legs)[1..] == PairsOf(legs[1..]);
    }
  }

  /**
   * Opening a stored shipment and submitting it untouched sends back its own
   * transporter and vehicle ids and, leg by leg, its endpoints and lines.
   */
  lemma EditRoundTrip(s: Shipment)
    ensures var p := BuildPayload(NumberToText(Int(s.transporter.id)), NumberToText(Int(s.vehicle.id)),
                                  BufferLegs(StoredRoutes(s)));
      var rs := StoredRoutes(s);
      p.transporterId == Int(s.transporter.id) && p.vehicleId == Int(s.vehicle.id) &&
      |p.routePairs| == |rs| &&
      forall i :: 0 <= i < |rs| ==>
        p.routePairs[i].sourceId == Int(rs[i].sourceId) && p.routePairs[i].destId == Int(rs[i].destId) &&
        |p.routePairs[i].materials| == |StoredMaterials(rs[i])| &&
        forall j :: 0 <= j < |StoredMaterials(rs[i])| ==>
          p.routePairs[i].materials[j] == MaterialLine(StoredMaterials(rs[i])[j].id, StoredMaterials(rs[i])[j].quantity)
  {
    ParseNumberToText(Int(s.transporter.id));
    ParseNumberToText(Int(s.vehicle.id));
  }

  // ----------------------------------------------------------------- editor

  datatype RouteField = SourceField | DestField

  datatype SubmitError = Invalid(reason: ValidationError) | SaveFailed

  /** The editor panel: whether it is shown, and its edit buffer. */
  class Panel {
    var open: bool
    var transporterId: string
    var vehicleId: string
    var routes: seq<Route>

    constructor()
      ensures !open && transporterId == "" && vehicleId == "" && routes == []
    {
      open := false;
      transporterId := "";
      vehicleId := "";
      routes := [];
    }

    /**
     * The effect run when the `open` prop changes: opening on no shipment
     * starts with no selections and one empty leg; opening on a stored one
     * loads it leg by leg; closing leaves the buffer as it was.
     */
    method Sync(isOpen: bool, shipment: Option<Shipment>)
      modifies this
      ensures open == isOpen
      ensures !isOpen ==> transporterId == old(transporterId) && vehicleId == old(vehicleId) && routes == old(routes)
      ensures isOpen && shipment.None? ==> transporterId == "" && vehicleId == "" && routes == [EmptyLeg]
      ensures isOpen && shipment.None? ==> TotalWeight(routes) == 0
      ensures isOpen && shipment.Some? ==>
        transporterId == NumberToText(Int(shipment.value.transporter.id)) &&
        vehicleId == NumberToText(Int(shipment.value.vehicle.id)) &&
        routes == BufferLegs(StoredRoutes(shipment.value))
    {
      open := isOpen;
      if isOpen {
        match shipment
        case Some(s) =>
          transporterId := NumberToText(Int(s.transporter.id));
          vehicleId := NumberToText(Int(s.vehicle.id));
          routes := BufferLegs(StoredRoutes(s));
        case None =>
          transporterId := "";
          vehicleId := "";
          routes := [EmptyLeg];
          TotalWeightAppendLeg([], EmptyLeg);
          assert [] + [EmptyLeg] == [EmptyLeg];
      }
    }

    /** The transporter combobox. */
    method SelectTransporter(value: string)
      modifies this`transporterId
      ensures transporterId == value
    {
      transporterId := value;
    }

    /** The vehicle combobox. */
    method SelectVehicle(value: string)
      modifies this`vehicleId
      ensures vehicleId == value
    {
      vehicleId := value;
    }

    /** `handleAddRoute`: one empty leg at the end; earlier legs and the weight unchanged. */
    method AddRoute()
      modifies this`routes
      ensures routes == old(routes) + [EmptyLeg]
      ensures TotalWeight(routes) == old(TotalWeight(routes))
    {
      TotalWeightAppendLeg(routes, EmptyLeg);
      routes := routes + [EmptyLeg];
    }

    /**
     * `handleRemoveRoute`: with more than one leg, the leg `splice` picks is
     * removed and the others keep their order; with one leg or none the
     * buffer is unchanged and an error is reported.
     */
    method RemoveRoute(index: int) returns (err: Option<string>)
      modifies this`routes
      ensures |old(routes)| > 1 ==> err == None && routes == Splice(old(routes), index)
      ensures |old(routes)| <= 1 ==> err.Some? && routes == old(routes)
      ensures |old(routes)| > 1 && 0 <= index < |old(routes)| ==>
        routes == old(routes)[..index] + old(routes)[index + 1..] &&
        TotalWeight(routes) == old(TotalWeight(routes)) - SumOfQuantities(old(routes)[index].materials)
      ensures |old(routes)| >= 1 ==> |routes| >= 1
    {
      if |routes| > 1 {
        if 0 <= index < |routes| {
          TotalWeightRemoveLeg(routes, index);
        }
        routes := Splice(routes, index);
        err := None;
      } else {
        err := Some("At least one route pair is required");
      }
    }

    /** `updateRoute` for the source or destination select of one leg; nothing else changes. */
    method UpdateRoute(index: nat, field: RouteField, value: JsNumber)
      requires index < |routes|
      modifies this`routes
      ensures routes == old(routes)[index :=
        match field
        case SourceField => old(routes)[index].(sourceId := value)
        case DestField => old(routes)[index].(destId := value)]
      ensures TotalWeight(routes) == old(TotalWeight(routes))
    {
      var leg := match field
        case SourceField => routes[index].(sourceId := value)
        case DestField => routes[index].(destId := value);
      TotalWeightReplaceLeg(routes, index, leg);
      routes := routes[index := leg];
    }

    /**
     * `addMaterialToRoute`: an id not among the options changes nothing;
     * otherwise a line with that id, the option's text and quantity 1 is
     * appended to that leg alone, adding 1 to the total weight.
     */
    method AddMaterialToRoute(routeIndex: nat, materialId: string, options: seq<Choice>)
      requires routeIndex < |routes|
      modifies this`routes
      ensures FindChoice(options, materialId).None? ==> routes == old(routes)
      ensures FindChoice(options, materialId).Some? ==>
        var leg := old(routes)[routeIndex];
        var line := Material(ParseNumber(materialId), options[FindChoice(options, materialId).value].caption, Int(1));
        routes == old(routes)[routeIndex := leg.(materials := leg.materials + [line])] &&
        TotalWeight(routes) == old(TotalWeight(routes)) + 1
    {
      match FindChoice(options, materialId)
      case None =>
      case Some(k) =>
        var leg := routes[routeIndex];
        var line := Material(ParseNumber(materialId), options[k].caption, Int(1));
        var newLeg := leg.(materials := leg.materials + [line]);
        SumAppendLine(leg.materials, line);
        TotalWeightReplaceLeg(routes, routeIndex, newLeg);
        routes := routes[routeIndex := newLeg];
    }

    /** `updateMaterialQuantity`: only that line's quantity changes, to `Number(quantity)`. */
    method UpdateMaterialQuantity(routeIndex: nat, materialIndex: nat, quantity: string)
      requires routeIndex < |routes| && materialIndex < |routes[routeIndex].materials|
      modifies this`routes
      ensures var leg := old(routes)[routeIndex];
        var line := leg.materials[materialIndex];
        routes == old(routes)[routeIndex := leg.(materials := leg.materials[materialIndex := line.(quantity := ParseNumber(quantity))])] &&
        TotalWeight(routes) ==
          old(TotalWeight(routes)) - QuantityWeight(line.quantity) + QuantityWeight(ParseNumber(quantity))
    {
      var leg := routes[routeIndex];
      var line := leg.materials[materialIndex].(quantity := ParseNumber(quantity));
      var newLeg := leg.(materials := leg.materials[materialIndex := line]);
      SumReplaceLine(leg.materials, materialIndex, line);
      TotalWeightReplaceLeg(routes, routeIndex, newLeg);
      routes := routes[routeIndex := newLeg];
    }

    /** `removeMaterialFromRoute`: the line `splice` picks leaves that leg; nothing else changes. */
    method RemoveMaterialFromRoute(routeIndex: nat, materialIndex: int)
      requires routeIndex < |routes|
      modifies this`routes
      ensures var leg := old(routes)[routeIndex];
        routes == old(routes)[routeIndex := leg.(materials := Splice(leg.materials, materialIndex))]
      ensures var leg := old(routes)[routeIndex];
        0 <= materialIndex < |leg.materials| ==>
          routes[routeIndex].materials == leg.materials[..materialIndex] + leg.materials[materialIndex + 1..] &&
          TotalWeight(routes) == old(TotalWeight(routes)) - QuantityWeight(leg.materials[materialIndex].quantity)
    {
      var leg := routes[routeIndex];
      var newLeg := leg.(materials := Splice(leg.materials, materialIndex));
      if 0 <= materialIndex < |leg.materials| {
        SumRemoveLine(leg.materials, materialIndex);
      }
      TotalWeightReplaceLeg(routes, routeIndex, newLeg);
      routes := routes[routeIndex := newLeg];
    }

    /**
     * `handleSubmit`: a failed check reports it and sends nothing; otherwise
     * the payload goes to the save callback, and the panel closes only when
     * the save succeeds. The buffer itself never changes.
     */
    method Submit(saveSucceeds: bool) returns (sent: Option<Payload>, err: Option<SubmitError>)
      modifies this`open
      ensures Validate(transporterId, vehicleId, routes).Some? ==>
        sent == None && err == Some(Invalid(Validate(transporterId, vehicleId, routes).value)) && open == old(open)
      ensures Validate(transporterId, vehicleId, routes).None? ==>
        sent == Some(BuildPayload(transporterId, vehicleId, routes))
      ensures Validate(transporterId, vehicleId, routes).None? && saveSucceeds ==> err == None && !open
      ensures Validate(transporterId, vehicleId, routes).None? && !saveSucceeds ==>
        err == Some(SaveFailed) && open == old(open)
    {
      match Validate(transporterId, vehicleId, routes)
      case Some(reason) =>
        sent := None;
        err := Some(Invalid(reason));
      case None =>
        sent := Some(BuildPayload(transporterId, vehicleId, routes));
        if saveSucceeds {
          open := false;
          err := None;
        } else {
          err := Some(SaveFailed);
        }
    }
  }
}

/** The editor and list flows walked through on concrete inputs. */
module Scenarios {
  import opened Wrappers
  import opened JsValues
  import opened ShipmentTypes
  import opened ShipmentPanel
  import CrudPage
  import Records
  import Text
  import ApiClient

  /**
   * A new shipment: transporter 4 and vehicle 9 picked, the starting leg set
   * to 3 → 7, Sand (material 5) added with its default quantity of 1.
   */
  method NewShipmentFlow() returns (sent: Option<Payload>, err: Option<SubmitError>)
    ensures sent == Some(Payload(Int(4), Int(9), [RoutePair(Int(3), Int(7), [MaterialLine(Int(5), Int(1))])]))
    ensures err == None
  {
    var sand := Material(Int(5), "Sand", Int(1));
    var panel := NewShipmentEditor();
    NewShipmentPayload(sand);
    sent, err := panel.Submit(true);
  }

  /** The editor of the new shipment above, just before its submission. */
  method NewShipmentEditor() returns (panel: Panel)
    ensures fresh(panel)
    ensures panel.transporterId == "4" && panel.vehicleId == "9"
    ensures panel.routes == [Route(None, Int(3), Int(7), None, None, [Material(Int(5), "Sand", Int(1))])]
  {
    panel := NewShipmentLeg();
    var options := [Choice("5", "Sand")];
    SingleDigits();
    assert FindChoice(options, "5") == Some(0);
    var sand := Material(Int(5), "Sand", Int(1));
    assert [] + [sand] == [sand];
    panel.AddMaterialToRoute(0, "5", options);
  }

  /** The new shipment's editor with both selections made and its leg set to 3 → 7. */
  method NewShipmentLeg() returns (panel: Panel)
    ensures fresh(panel)
    ensures panel.transporterId == "4" && panel.vehicleId == "9"
    ensures panel.routes == [Route(None, Int(3), Int(7), None, None, [])]
  {
    panel := new Panel();
    panel.Sync(true, None);
    panel.SelectTransporter("4");
    panel.SelectVehicle("9");
    panel.UpdateRoute(0, SourceField, Int(3));
    assert panel.routes == [Route(None, Int(3), Int(0), None, None, [])];
    panel.UpdateRoute(0, DestField, Int(7));
  }

  lemma SingleDigits()
    ensures ParseNumber("4") == Int(4) && ParseNumber("5") == Int(5) && ParseNumber("9") == Int(9)
  {
    assert "4"[..0] == "" && "5"[..0] == "" && "9"[..0] == "";
  }

  /** The one-leg, one-line shipment above validates and yields its single route pair. */
  lemma NewShipmentPayload(sand: Material)
    requires sand == Material(Int(5), "Sand", Int(1))
    ensures var legs := [Route(None, Int(3), Int(7), None, None, [sand])];
      Validate("4", "9", legs) == None &&
      BuildPayload("4", "9", legs) == Payload(Int(4), Int(9), [RoutePair(Int(3), Int(7), [MaterialLine(Int(5), Int(1))])])
  {
    SingleDigits();
    var legs := [Route(None, Int(3), Int(7), None, None, [sand])];
    assert LinesOf([sand]) == [MaterialLine(Int(5), Int(1))];
    assert PairsOf(legs) == [RoutePair(Int(3), Int(7), [MaterialLine(Int(5), Int(1))])];
  }

  /**
   * A stored shipment with two legs of one 10-unit line each weighs 20; once
   * the first leg loses its line, submitting fails on the material check and
   * sends nothing.
   */
  method EditShipmentFlow() returns (weight: int, sent: Option<Payload>, err: Option<SubmitError>)
    ensures weight == 20
    ensures sent == None && err == Some(Invalid(MissingMaterials))
  {
    var steel := Material(Int(2), "Steel", Int(10));
    var first := Route(Some(1), Int(3), Int(7), Some("Pune"), Some("Delhi"), [steel]);
    var second := Route(Some(2), Int(7), Int(8), Some("Delhi"), Some("Agra"), [steel]);
    var panel := StoredShipmentEditor();
    EditWeight(first, second);
    weight := TotalWeight(panel.routes);
    panel.RemoveMaterialFromRoute(0, 0);
    assert panel.routes == [first.(materials := []), second];
    EditValidation(first.(materials := []), second);
    assert panel.transporterId == "4" && panel.vehicleId == "9";
    sent, err := panel.Submit(true);
  }

  /** The editor opened on the stored two-leg shipment above. */
  method StoredShipmentEditor() returns (panel: Panel)
    ensures fresh(panel)
    ensures panel.transporterId == "4" && panel.vehicleId == "9"
    ensures var steel := Material(Int(2), "Steel", Int(10));
      panel.routes == [Route(Some(1), Int(3), Int(7), Some("Pune"), Some("Delhi"), [steel]),
                       Route(Some(2), Int(7), Int(8), Some("Delhi"), Some("Agra"), [steel])]
  {
    var steel := Material(Int(2), "Steel", Int(10));
    var legs := [StoredRoute(Some(1), 3, 7, Some("Pune"), Some("Delhi"), Some([steel])),
                 StoredRoute(Some(2), 7, 8, Some("Delhi"), Some("Agra"), Some([steel]))];
    var shipment := Shipment(11, Party(4, "Acme Freight"), Party(9, "Truck"), Some(legs));
    panel := new Panel();
    panel.Sync(true, Some(shipment));
    assert NumberToText(Int(4)) == "4" && NumberToText(Int(9)) == "9";
  }

  /** Two legs of one 10-unit line each weigh 20. */
  lemma EditWeight(first: Route, second: Route)
    requires first.materials == second.materials == [Material(Int(2), "Steel", Int(10))]
    ensures TotalWeight([first, second]) == 20
  {
    var steel := Material(Int(2), "Steel", Int(10));
    assert AllMaterials([second]) == [steel] by {
      assert [second][1..] == [];
    }
    assert AllMaterials([first, second]) == first.materials + AllMaterials([second]) by {
      assert [first, second][1..] == [second];
    }
    assert SumOfQuantities([steel]) == 10 by {
      assert [steel][1..] == [];
    }
    assert SumOfQuantities([steel, steel]) == 20 by {
      assert [steel, steel][1..] == [steel];
    }
    assert [steel] + [steel] == [steel, steel];
  }

  /** With endpoints on both legs but no line on the first, validation names the missing materials. */
  lemma EditValidation(first: Route, second: Route)
    requires first.sourceId == Int(3) && first.destId == Int(7) && first.materials == []
    requires second.sourceId == Int(7) && second.destId == Int(8)
    ensures Validate("4", "9", [first, second]) == Some(MissingMaterials)
  {
    assert !SomeLegWithoutEndpoints([first, second]);
    assert SomeLegWithoutMaterials([first, second]);
  }

  /** The params of the search below: the text first, then the filter. */
  lemma SearchParams()
    ensures CrudPage.QueryParams("acme", [("category", "2")]) == [("search", "acme"), ("category", "2")]
  {
    var filters: Records.Record<string> := [("category", "2")];
    assert Records.Keys(filters) == ["category"];
    assert !Records.HasKey(filters, "search");
  }

  /** The query string of the search below, on an encoder that leaves plain words alone. */
  lemma SearchQuery(enc: string -> string)
    requires enc("search") == "search" && enc("acme") == "acme"
    requires enc("category") == "category" && enc("2") == "2"
    ensures ApiClient.QueryString([("search", "acme"), ("category", "2")], enc) == "search=acme&category=2"
  {
    var params: Records.Record<string> := [("search", "acme"), ("category", "2")];
    var pairs := ApiClient.QueryPairs(params, enc);
    SearchPairTexts();
    assert pairs == ["search=acme", "category=2"];
    assert pairs[1..] == ["category=2"];
    assert Text.Join(pairs, "&") == "search=acme" + "&" + "category=2";
  }

  lemma SearchPairTexts()
    ensures "search" + "=" + "acme" == "search=acme"
    ensures "category" + "=" + "2" == "category=2"
    ensures "search=acme" + "&" + "category=2" == "search=acme&category=2"
  {
  }

  /**
   * The materials list searched for "acme" and filtered on category 2 asks
   * for `/materials?search=acme&category=2`.
   */
  method MaterialSearchFlow(enc: string -> string) returns (request: ApiClient.Request<JsValue>)
    requires enc("search") == "search" && enc("acme") == "acme"
    requires enc("category") == "category" && enc("2") == "2"
    ensures request == ApiClient.Request(ApiClient.GET, "/materials?search=acme&category=2", None)
  {
    var page := new CrudPage.CrudPageState("Materials", "materials", []);
    page.HandleSearch("acme");
    page.HandleFilterChange("category", "2");
    assert page.filters == [("category", "2")];
    assert page.search == "acme" && page.model == "materials";
    request := page.ListRequest(enc);
    assert request == ApiClient.GetAll("materials", Some(CrudPage.QueryParams("acme", [("category", "2")])), enc);
    SearchRequest(enc);
  }

  /** The list request of the search above, from the params and the query string. */
  lemma SearchRequest(enc: string -> string)
    requires enc("search") == "search" && enc("acme") == "acme"
    requires enc("category") == "category" && enc("2") == "2"
    ensures ApiClient.GetAll("materials", Some(CrudPage.QueryParams("acme", [("category", "2")])), enc) ==
      ApiClient.Request(ApiClient.GET, "/materials?search=acme&category=2", None)
  {
    SearchParams();
    SearchQuery(enc);
    MaterialsRequest([("search", "acme"), ("category", "2")], enc);
  }

  lemma MaterialsRequest(p: Records.Record<string>, enc: string -> string)
    requires ApiClient.QueryString(p, enc) == "search=acme&category=2"
    ensures ApiClient.GetAll("materials", Some(p), enc) ==
      ApiClient.Request(ApiClient.GET, "/materials?search=acme&category=2", None)
  {
    var q := "search=acme&category=2";
    assert ApiClient.GetAll("materials", Some(p), enc).endpoint == ApiClient.CollectionPath("materials") + "?" + q;
    assert ApiClient.CollectionPath("materials") + "?" == "/materials?";
    MaterialsEndpointText();
  }

  lemma MaterialsEndpointText()
    ensures "/materials?" + "search=acme&category=2" == "/materials?search=acme&category=2"
  {
  }
}

/** The shipment records the editor loads, and the entries of its edit buffer. */
module ShipmentTypes {
  import opened Wrappers
  import opened JsValues

  /** One material line of a leg: which material, its display name, its quantity. */
  datatype Material = Material(id: JsNumber, name: string, quantity: JsNumber)

  /** One route leg of the edit buffer; `source` and `destination` are display names. */
  datatype Route = Route(
    id: Option<int>,
    sourceId: JsNumber,
    destId: JsNumber,
    source: Option<string>,
    destination: Option<string>,
    materials: seq<Material>)

  /** A leg as stored; the editor also copes with a missing material list. */
  datatype StoredRoute = StoredRoute(
    id: Option<int>,
    sourceId: int,
    destId: int,
    source: Option<string>,
    destination: Option<string>,
    materials: Option<seq<Material>>)

  /** The transporter or vehicle a stored shipment refers to. */
  datatype Party = Party(id: int, name: string)

  /** The parts of a stored shipment the editor reads; a missing route list is tolerated. */
  datatype Shipment = Shipment(id: int, transporter: Party, vehicle: Party, routes: Option<seq<StoredRoute>>)

  /** A combobox entry: the value it selects and the text it shows. */
  datatype Choice = Choice(value: string, caption: string)
}

/** The records the Carva app keeps in its browser store: requests, users,
    workshops, chat messages and bill lines. Optional TypeScript fields whose
    absence every reader treats as `false`, `0` or `[]` are given that value;
    the others are `Option`s. */
module Types {

  datatype Option<T> = None | Some(value: T)

  /** The closed set of request states. */
  datatype Status =
    | WaitingWorkshop
    | Negotiation
    | Pending
    | Accepted
    | PickedUp
    | ArrivedAtDest
    | Completed
    | Cancelled

  /** The three account roles; the source spells them in Arabic
      (flatbed driver, user, workshop). A user record may also have no role. */
  datatype Role = FlatbedRole | OwnerRole | WorkshopRole

  datatype Sender = FromUser | FromDriver | FromWorkshop | FromSystem

  datatype ChatMessage = ChatMessage(
    id: int,
    sender: Sender,
    text: string,
    time: string,
    image: Option<string>)

  datatype BillItem = BillItem(id: int, name: string, price: int, quantity: int)

  /** The free-text problem details captured at creation. */
  datatype Problem = Problem(
    description: string,
    incidentTime: string,
    isAccident: bool,
    accidentReportImage: Option<string>,
    carImage: Option<string>)

  datatype Request = Request(
    id: int,
    username: string,
    name: string,
    car: string,
    year: int,
    userLat: real,
    userLng: real,
    destLat: real,
    destLng: real,
    destName: string,
    timestamp: int,
    status: Status,
    driverName: Option<string>,
    driverPlate: Option<string>,
    sat7aLat: Option<real>,
    sat7aLng: Option<real>,
    userConfirmed: bool,
    sat7aConfirmed: bool,
    chatMessages: seq<ChatMessage>,
    negotiationChatMessages: seq<ChatMessage>,
    problem: Problem,
    canDrive: bool,
    billItems: seq<BillItem>,
    laborCost: int,
    billTotal: int,
    isBillFinalized: bool,
    tripCost: Option<nat>,
    isPaid: bool)

  /** The part of an account record the lifecycle reads or writes. */
  datatype User = User(
    name: string,
    username: string,
    role: Option<Role>,
    walletBalance: int,
    flatbedPlate: Option<string>,
    workshopLat: Option<real>,
    workshopLng: Option<real>)

  datatype Workshop = Workshop(
    id: int,
    nameAr: string,
    nameEn: string,
    lat: Option<real>,
    lng: Option<real>)

  /** JavaScript truthiness of an optional string: present and non-empty. */
  predicate Truthy(o: Option<string>) {
    o.Some? && o.value != ""
  }

  /** `s || d` for an optional string. */
  function StringOr(o: Option<string>, d: string): string {
    if Truthy(o) then o.value else d
  }

  /** `x || d` for an optional number: absent and 0 both fall back to `d`. */
  function RealOr(o: Option<real>, d: real): real {
    if o.Some? && o.value != 0.0 then o.value else d
  }
}

/** The Mongoose schema of a ticket: an owning user, a product from a closed
    list, a required description, and a status from a closed list that
    defaults to "new". */
module TicketModel {
  import opened Http

  type UserId = nat

  datatype Product = IPhone | Macbook | IMac | IPad | Other

  datatype Status = New | Open | Closed

  function ProductName(p: Product): string
  {
    match p
    case IPhone => "iPhone"
    case Macbook => "Macbook"
    case IMac => "iMac"
    case IPad => "iPad"
    case Other => "Other"
  }

  /** The `enum` validator of the `product` path. */
  function ParseProduct(s: string): (r: Option<Product>)
    ensures r.Some? ==> ProductName(r.value) == s
    ensures r.Some? <==> s in {"iPhone", "Macbook", "iMac", "iPad", "Other"}
  {
    if s == "iPhone" then Some(IPhone)
    else if s == "Macbook" then Some(Macbook)
    else if s == "iMac" then Some(IMac)
    else if s == "iPad" then Some(IPad)
    else if s == "Other" then Some(Other)
    else None
  }

  lemma ProductRoundTrip(p: Product)
    ensures ParseProduct(ProductName(p)) == Some(p)
  {
  }

  function StatusName(st: Status): string
  {
    match st
    case New => "new"
    case Open => "open"
    case Closed => "closed"
  }

  /** The `enum` validator of the `status` path. */
  function ParseStatus(s: string): (r: Option<Status>)
    ensures r.Some? ==> StatusName(r.value) == s
    ensures r.Some? <==> s in {"new", "open", "closed"}
  {
    if s == "new" then Some(New)
    else if s == "open" then Some(Open)
    else if s == "closed" then Some(Closed)
    else None
  }

  lemma StatusRoundTrip(st: Status)
    ensures ParseStatus(StatusName(st)) == Some(st)
  {
  }

  /** The value the schema gives `status` when a document has none. */
  const DefaultStatus: Status := New

  /** A stored ticket. Fields are kept as the strings the store holds, because
      an update writes them without running the validators. */
  datatype Ticket = Ticket(user: UserId, product: string, description: string, status: string)

  /** What the schema demands of a saved ticket. The owning user is always
      present in a `Ticket`; its type makes the `user` requirement hold. */
  predicate Valid(t: Ticket)
    ensures Valid(t) ==> t.product in {"iPhone", "Macbook", "iMac", "iPad", "Other"}
    ensures Valid(t) ==> t.status in {"new", "open", "closed"}
    ensures Valid(t) ==> |t.description| > 0
  {
    && ParseProduct(t.product).Some?
    && t.description != ""
    && ParseStatus(t.status).Some?
  }

  /** A document handed to `Ticket.create`: any path may be absent. An absent
      path of a draft is filled by the schema default and then validated; an
      update body (`Patch` in the controller) has the same shape but is applied
      as it is, without defaults or validators, so the two are kept apart. */
  datatype Draft = Draft(user: Option<UserId>, product: Option<string>,
                         description: Option<string>, status: Option<string>)

  /** A failed validator of one path. */
  datatype FieldError = Required(path: string, message: string) | NotInEnum(path: string, value: string)

  /** The schema default: an absent `status` becomes "new"; nothing else is filled in. */
  function WithDefaults(d: Draft): (r: Draft)
    ensures r.user == d.user && r.product == d.product && r.description == d.description
    ensures d.status.Some? ==> r.status == d.status
    ensures d.status.None? ==> r.status == Some(StatusName(DefaultStatus))
  {
    if d.status.None? then d.(status := Some(StatusName(DefaultStatus))) else d
  }

  // One error per path: the `required` validator runs first and the `enum`
  // validator lets an absent value through.

  function UserErrors(user: Option<UserId>): seq<FieldError>
  {
    if user.None? then [Required("user", "Path `user` is required.")] else []
  }

  function ProductErrors(product: Option<string>): seq<FieldError>
  {
    if Falsy(product) then [Required("product", "Please add a product")]
    else if ParseProduct(product.value).None? then [NotInEnum("product", product.value)]
    else []
  }

  function DescriptionErrors(description: Option<string>): seq<FieldError>
  {
    if Falsy(description) then [Required("description", "Please add a description of the issue")]
    else []
  }

  /** `status` is spelled with `require` in the schema, which Mongoose ignores,
      so only the enum is checked. */
  function StatusErrors(status: Option<string>): seq<FieldError>
  {
    if status.Some? && ParseStatus(status.value).None? then [NotInEnum("status", status.value)]
    else []
  }

  /** All validator failures of a document, in the schema's path order. */
  function Validate(d: Draft): (errs: seq<FieldError>)
    ensures d.user.None? ==> Required("user", "Path `user` is required.") in errs
    ensures Falsy(d.product) ==> Required("product", "Please add a product") in errs
    ensures !Falsy(d.product) && ParseProduct(d.product.value).None? ==> NotInEnum("product", d.product.value) in errs
    ensures Falsy(d.description) ==> Required("description", "Please add a description of the issue") in errs
    ensures d.status.Some? && ParseStatus(d.status.value).None? ==> NotInEnum("status", d.status.value) in errs
    ensures forall i, j :: 0 <= i < j < |errs| ==> errs[i].path != errs[j].path
    ensures errs == [] <==>
              && d.user.Some?
              && !Falsy(d.product) && ParseProduct(d.product.value).Some?
              && !Falsy(d.description)
              && (d.status.Some? ==> ParseStatus(d.status.value).Some?)
  {
    UserErrors(d.user) + ProductErrors(d.product) + DescriptionErrors(d.description) + StatusErrors(d.status)
  }

  /** `Ticket.create`: apply the defaults, then validate, then save. */
  function Create(d: Draft): (r: Result<Ticket, seq<FieldError>>)
    ensures r.Success? <==>
              && d.user.Some?
              && d.product.Some? && ParseProduct(d.product.value).Some?
              && !Falsy(d.description)
              && (d.status.Some? ==> ParseStatus(d.status.value).Some?)
    ensures r.Success? ==> Valid(r.value)
    ensures r.Success? ==> && r.value.user == d.user.value
                           && r.value.product == d.product.value
                           && r.value.description == d.description.value
    ensures r.Success? && d.status.None? ==> r.value.status == "new"
    ensures r.Success? && d.status.Some? ==> r.value.status == d.status.value
    ensures r.Failure? ==> r.error != [] && r.error == Validate(WithDefaults(d))
  {
    var e := WithDefaults(d);
    var errs := Validate(e);
    if errs == [] then Success(Ticket(e.user.value, e.product.value, e.description.value, e.status.value))
    else Failure(errs)
  }

  /** The document that saves a ticket back exactly. */
  function DraftOf(t: Ticket): Draft
  {
    Draft(Some(t.user), Some(t.product), Some(t.description), Some(t.status))
  }

  /** Every valid ticket is accepted by the schema and saved unchanged, and only
      valid tickets are. */
  lemma CreateAcceptsExactlyValid(t: Ticket)
    ensures Create(DraftOf(t)) == Success(t) <==> Valid(t)
  {
  }

  /** The status requirement is never enforced: a document without a status is
      never rejected for it, and it is saved with "new". */
  lemma StatusOnlyFromDefault(d: Draft)
    requires d.status.None?
    ensures StatusErrors(WithDefaults(d).status) == []
    ensures Create(d).Success? ==> Create(d).value.status == StatusName(DefaultStatus)
  {
  }

  /** The message Mongoose gives a failed validator. */
  function FieldMessage(e: FieldError): (r: string)
    ensures e.Required? ==> r == e.message
    ensures e.NotInEnum? ==> "`" + e.value + "`" <= r
  {
    match e
    case Required(_, message) => message
    case NotInEnum(path, value) => "`" + value + "` is not a valid enum value for path `" + path + "`."
  }

  function JoinFields(errs: seq<FieldError>): (r: string)
    ensures errs != [] ==> errs[0].path + ": " + FieldMessage(errs[0]) <= r
  {
    if errs == [] then ""
    else if |errs| == 1 then errs[0].path + ": " + FieldMessage(errs[0])
    else errs[0].path + ": " + FieldMessage(errs[0]) + ", " + JoinFields(errs[1..])
  }

  /** The message of the `ValidationError` that `Ticket.create` throws. */
  function ValidationMessage(errs: seq<FieldError>): (r: string)
    ensures "Ticket validation failed: " <= r
    ensures errs != [] ==> "Ticket validation failed: " + errs[0].path + ": " + FieldMessage(errs[0]) <= r
    ensures |errs| == 1 ==> r == "Ticket validation failed: " + errs[0].path + ": " + FieldMessage(errs[0])
  {
    "Ticket validation failed: " + JoinFields(errs)
  }
}

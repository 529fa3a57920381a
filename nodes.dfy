/** The object model of the COUNTER Release 4.1 report classes: one datatype per
    class (its private fields, in declaration order), the union of all objects a
    loose input may hold, and the loose PHP input itself. */
module Nodes {
  import opened Xml
  import opened Dates

  datatype Option<T> = None | Some(value: T)

  /** Schema classes the core refers to but does not define. */
  datatype OpaqueKind = ReportItemsKind | PerformanceCounterKind | IdentifierKind | ItemAttributeKind

  function OpaqueClassName(k: OpaqueKind): string
  {
    match k
    case ReportItemsKind => "ReportItems"
    case PerformanceCounterKind => "PerformanceCounter"
    case IdentifierKind => "Identifier"
    case ItemAttributeKind => "ItemAttribute"
  }

  /** An instance of one of those classes, known only by its class and by the
      tree its asDOMDocument() builds. */
  datatype Opaque = Opaque(kind: OpaqueKind, dom: Xml)

  datatype Contact = Contact(contact: string, email: string)

  datatype Consortium = Consortium(code: string, wellKnownName: string)

  datatype Vendor = Vendor(name: string, id: string, contacts: seq<Contact>, webSiteUrl: string, logoUrl: string)

  datatype Customer = Customer(
    name: string,
    id: string,
    contacts: seq<Contact>,
    webSiteUrl: string,
    logoUrl: string,
    consortium: Option<Consortium>,
    institutionalIdentifiers: seq<Opaque>,
    reportItems: seq<Opaque>)

  datatype Report = Report(
    created: string,
    id: string,
    version: string,
    name: string,
    title: string,
    vendor: Vendor,
    customers: seq<Customer>)

  datatype DateRange = DateRange(begin: Date, end: Date)

  /** `None` is a publication-year field the constructor left unset. */
  datatype Metric = Metric(
    pubYr: Option<nat>,
    pubYrFrom: Option<nat>,
    pubYrTo: Option<nat>,
    period: DateRange,
    category: string,
    instances: seq<Opaque>)

  datatype ItemContributorId = ItemContributorId(idType: string, value: string)

  datatype ItemDate = ItemDate(dateType: string, value: Date)

  datatype ItemContributor = ItemContributor(
    ids: seq<ItemContributorId>,
    name: string,
    affiliations: seq<string>,
    roles: seq<string>)

  datatype ParentItem = ParentItem(
    identifiers: seq<Opaque>,
    contributors: seq<ItemContributor>,
    dates: seq<ItemDate>,
    attributes: seq<Opaque>,
    publisher: string,
    name: string,
    dataType: string)

  /** Any object a loose input can hold: an instance of a core class, of an
      opaque class, or a \DateTime. */
  datatype Node =
    | NReport(report: Report)
    | NVendor(vendor: Vendor)
    | NCustomer(customer: Customer)
    | NConsortium(consortium: Consortium)
    | NContact(contact: Contact)
    | NMetric(metric: Metric)
    | NDateRange(range: DateRange)
    | NParentItem(parentItem: ParentItem)
    | NItemContributor(contributor: ItemContributor)
    | NItemContributorId(contributorId: ItemContributorId)
    | NItemDate(itemDate: ItemDate)
    | NOpaque(obj: Opaque)
    | NDateTime(date: Date)

  /** The fully qualified name of a class in the COUNTER namespace. */
  function Counter(short: string): string
  {
    "COUNTER\\" + short
  }

  /** get_class() of an object. */
  function ClassOf(n: Node): string
  {
    match n
    case NReport(_) => Counter("Report")
    case NVendor(_) => Counter("Vendor")
    case NCustomer(_) => Counter("Customer")
    case NConsortium(_) => Counter("Consortium")
    case NContact(_) => Counter("Contact")
    case NMetric(_) => Counter("Metric")
    case NDateRange(_) => Counter("DateRange")
    case NParentItem(_) => Counter("ParentItem")
    case NItemContributor(_) => Counter("ItemContributor")
    case NItemContributorId(_) => Counter("ItemContributorId")
    case NItemDate(_) => Counter("ItemDate")
    case NOpaque(o) => Counter(OpaqueClassName(o.kind))
    case NDateTime(_) => "DateTime"
  }

  /** A PHP array key. As in PHP, a StrKey never holds the canonical decimal
      text of an integer (PHP stores `'123'` as the integer key 123), and the
      keys of one array are distinct; the builders' lemmas are stated for all
      entry lists, including ones no PHP array can be. */
  datatype Key = IntKey(i: int) | StrKey(s: string)

  /** A PHP value as the builders receive it; an array is its entries in order. */
  datatype Raw =
    | RNull
    | RBool(b: bool)
    | RInt(i: int)
    | RStr(s: string)
    | RArr(entries: seq<Entry>)
    | RObj(node: Node)

  datatype Entry = Entry(key: Key, value: Raw)
}

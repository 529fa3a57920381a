# COUNTER 4.1 report object model in Dafny

This project models the object model that the COUNTER report plugin uses to
produce Project COUNTER Release 4.1 usage reports
(`plugins/reports/counter/classes/COUNTER/`). Every class of that model
extends `ReportBuilder`, which supplies the shared validators, the key-shape
test `isAssociative`, the one-or-many dispatcher `buildMultiple`, the closed
enumerations of the schema and a default `build` that always fails. Each
class has three entry points, and each is modelled here:

* a validating constructor (`New`), which turns loose PHP values into a
  typed object or fails with one of the exceptions the source throws;
* a static `build($array)` (`Build`), which recognises a small, ordered set
  of input shapes, builds any nested objects and calls the constructor;
* `asDOMDocument()` (`Dom`, and `AsDOMDocument` for its loops), which emits
  one element whose children come in a fixed order and which omits empty
  optional fields.

The root aggregate `Reports` holds a list of reports that only grows
through `addReport`. It renders as the namespaced `Reports` element, with
the Release 4.1 schema location.

Layout:

* `nodes.dfy` holds one datatype per class and the loose input `Raw`:
  null, booleans, integers, strings, ordered arrays with int or string keys,
  and objects.
* `php.dfy` holds the PHP semantics used: truthiness, `gettype()`,
  `intval()`, `isset()`, `??`, key assignment and `unset()`.
* `xml.dfy` is the abstract DOM tree.
* `dates.dfy` and `decimal.dfy` hold the date and number formatting.
* `report_builder.dfy` is the shared base.
* Each other file models one class.

Only `Reports` is a `class`, because its `addReport` changes its list in
place. Every other COUNTER object is assigned once in its constructor and
never changed, so each is a datatype value. Every loop in the source is a
method, proved equal to the function that specifies it. These loops are in
`validateOneOrMoreOf`, `validateStrings`, `buildMultiple` and the
`foreach` bodies of `asDOMDocument`.

The calls the core makes into its environment are fields of the `Env`
parameter:

* `date_create()` is `parseDate`;
* `filter_var(…, FILTER_VALIDATE_EMAIL)` is `isEmail`;
* the wall clock is `now`;
* the `build` methods of the classes the core refers to but does not
  define (ReportItems, PerformanceCounter, Identifier, ItemAttribute) are
  `buildOpaque`.

All paths below are relative to `plugins/reports/counter/classes/COUNTER/`
in the source tree; the table cites them in full.

## Model

| member | source | states |
|---|---|---|
| ReportBuilder.ValidateOneOf | plugins/reports/counter/classes/COUNTER/ReportBuilder.php:58-89 | succeeds exactly on an object of the expected class, or on a string that parses when the target is `\DateTime`. An object comes back unchanged and a parsed string becomes the DateTime. Null, any array, an unparseable string and an object of another class each fail with their own error, naming the expected class. |
| ReportBuilder.ClassNameSpellings | plugins/reports/counter/classes/COUNTER/ReportBuilder.php:60-66 | a bare name, `COUNTER\Name` and `\COUNTER\Name` all expect the same class, `COUNTER\Name`. |
| ReportBuilder.ValidateDate | plugins/reports/counter/classes/COUNTER/ReportBuilder.php:73-84 | a `\DateTime` check succeeds exactly on a DateTime object (kept as it is) or on a string `date_create` parses (kept as the parsed date); otherwise it fails with validateOneOf's error. |
| ReportBuilder.DateTimeClass | plugins/reports/counter/classes/COUNTER/ReportBuilder.php:60-66 | `\DateTime` expects the class `DateTime`, which is the class of exactly the DateTime objects. |
| ReportBuilder.ReportClass | plugins/reports/counter/classes/COUNTER/ReportBuilder.php:85-88 | a check for `Report` accepts exactly the Report objects (no class of the core is a subclass of another); the lemmas VendorClass, CustomerClass, ConsortiumClass, ContactClass, DateRangeClass, ItemContributorClass, ItemContributorIdClass and ItemDateClass state the same for their classes. |
| ReportBuilder.VendorClass | plugins/reports/counter/classes/COUNTER/ReportBuilder.php:85-88 | a check for `Vendor` accepts exactly the Vendor objects. |
| ReportBuilder.CustomerClass | plugins/reports/counter/classes/COUNTER/ReportBuilder.php:85-88 | a check for `Customer` accepts exactly the Customer objects. |
| ReportBuilder.ConsortiumClass | plugins/reports/counter/classes/COUNTER/ReportBuilder.php:85-88 | a check for `Consortium` accepts exactly the Consortium objects. |
| ReportBuilder.ContactClass | plugins/reports/counter/classes/COUNTER/ReportBuilder.php:85-88 | a check for `Contact` accepts exactly the Contact objects. |
| ReportBuilder.DateRangeClass | plugins/reports/counter/classes/COUNTER/ReportBuilder.php:85-88 | a check for `DateRange` accepts exactly the DateRange objects. |
| ReportBuilder.ItemContributorClass | plugins/reports/counter/classes/COUNTER/ReportBuilder.php:85-88 | a check for `ItemContributor` accepts exactly the ItemContributor objects. |
| ReportBuilder.ItemContributorIdClass | plugins/reports/counter/classes/COUNTER/ReportBuilder.php:85-88 | a check for `ItemContributorId` accepts exactly the ItemContributorId objects. |
| ReportBuilder.ItemDateClass | plugins/reports/counter/classes/COUNTER/ReportBuilder.php:85-88 | a check for `ItemDate` accepts exactly the ItemDate objects. |
| ReportBuilder.OpaqueClass | plugins/reports/counter/classes/COUNTER/ReportBuilder.php:85-88 | a check for ReportItems, PerformanceCounter, Identifier or ItemAttribute accepts exactly the objects of that class. |
| ReportBuilder.OneOfClass | plugins/reports/counter/classes/COUNTER/ReportBuilder.php:85-88 | for any class other than `\DateTime`, what validateOneOf accepts is an object of the expected class. |
| ReportBuilder.FirstInvalid | plugins/reports/counter/classes/COUNTER/ReportBuilder.php:103-107 | the error of the first element that fails validateOneOf, in array order, or none when every element passes. |
| ReportBuilder.ValidateOneOrMoreOf | plugins/reports/counter/classes/COUNTER/ReportBuilder.php:101-110 | an array passes exactly when every element passes validateOneOf, and comes back as its values in the same order; an empty array passes. A non-array is checked on its own and wrapped into a one-element list. |
| ReportBuilder.ValidateOneOrMoreOfLoop | plugins/reports/counter/classes/COUNTER/ReportBuilder.php:101-110 | the `foreach` over the array gives the same result (and the same first error) as ValidateOneOrMoreOf. |
| ReportBuilder.OneOrMoreInstances | plugins/reports/counter/classes/COUNTER/ReportBuilder.php:101-110 | every element of a successful one-or-more check is an object of the expected class. |
| ReportBuilder.ValidateZeroOrMoreOf | plugins/reports/counter/classes/COUNTER/ReportBuilder.php:122-128 | an empty value gives the empty list without any kind check; a non-empty one is validateOneOrMoreOf. |
| ReportBuilder.ZeroOrMoreInstances | plugins/reports/counter/classes/COUNTER/ReportBuilder.php:122-128 | everything a successful zero-or-more check returns is an object of the expected class. |
| ReportBuilder.ValidateZeroOrOneOf | plugins/reports/counter/classes/COUNTER/ReportBuilder.php:140-146 | an empty value gives nothing without any kind check; a non-empty one succeeds exactly when validateOneOf does, with its value. |
| ReportBuilder.ValidatePositiveInteger | plugins/reports/counter/classes/COUNTER/ReportBuilder.php:157-164 | succeeds exactly when `intval()` of the value is not negative, returning that value. |
| Php.StringToInt | plugins/reports/counter/classes/COUNTER/ReportBuilder.php:159 | `intval()` of a string always lies in the 64-bit signed range. |
| Php.StringToIntOfNatToString | plugins/reports/counter/classes/COUNTER/ReportBuilder.php:159 | `intval()` of the decimal text of a non-negative integer within range is that integer. |
| ReportBuilder.ValidateString | plugins/reports/counter/classes/COUNTER/ReportBuilder.php:175-181 | the identity on strings; anything else fails with an error naming its `gettype()`. |
| ReportBuilder.FirstNonString | plugins/reports/counter/classes/COUNTER/ReportBuilder.php:194-199 | the first element that is not a string, in order, or none when all are strings. |
| ReportBuilder.ValidateStrings | plugins/reports/counter/classes/COUNTER/ReportBuilder.php:192-206 | an array of strings comes back unchanged, in order, and an array holding a non-string fails. A string `s` becomes `[s]`. Any other empty value gives the empty list, and any other non-empty value fails. |
| ReportBuilder.ValidateStringsLoop | plugins/reports/counter/classes/COUNTER/ReportBuilder.php:192-206 | the `foreach` over the array gives the same result as ValidateStrings. |
| ReportBuilder.StringListValidates | plugins/reports/counter/classes/COUNTER/ReportBuilder.php:192-199 | a list of strings passes validateStrings as those strings. |
| ReportBuilder.StringKeyCount | plugins/reports/counter/classes/COUNTER/ReportBuilder.php:215-218 | the number of string keys is positive exactly when some key is a string (isAssociative), and is at most the number of entries. |
| ReportBuilder.IsAssociative | plugins/reports/counter/classes/COUNTER/ReportBuilder.php:215-218 | an array counts as associative exactly when some key is a string, and as a list exactly when every key is an integer. |
| ReportBuilder.BuildEach | plugins/reports/counter/classes/COUNTER/ReportBuilder.php:236-241 | building every element in order succeeds exactly when each build does, giving their results in input order; otherwise the first failing build's error. |
| ReportBuilder.BuildMultiple | plugins/reports/counter/classes/COUNTER/ReportBuilder.php:229-242 | a non-array gives `[]`. An associative array gives the single object its build returns. Any other array gives one build per element, in input order, and fails with the first failure. |
| ReportBuilder.BuildMultipleLoop | plugins/reports/counter/classes/COUNTER/ReportBuilder.php:229-242 | the `foreach` that appends to `$elements` gives the same result as BuildMultiple. |
| ReportBuilder.BuildMultipleOfList | plugins/reports/counter/classes/COUNTER/ReportBuilder.php:236-241 | a list of inputs, each building to a given object, builds to the list of those objects in the same order. |
| ReportBuilder.BuiltListValidates | plugins/reports/counter/classes/COUNTER/ReportBuilder.php:101-110 | a list of objects of the expected class passes validateOneOrMoreOf unchanged. |
| ReportBuilder.BuiltListValidatesZeroOrMore | plugins/reports/counter/classes/COUNTER/ReportBuilder.php:122-128 | a list of objects of the expected class passes validateZeroOrMoreOf unchanged. |
| ReportBuilder.EnumerationsTruthy | plugins/reports/counter/classes/COUNTER/ReportBuilder.php:251-318 | every value of the item-data-type, contributor-identifier, date-type and category lists is a non-empty string other than "0", so a stored value is always rendered. |
| ReportBuilder.OptionalLeaf | plugins/reports/counter/classes/COUNTER/Vendor.php:119-121 | `if ($s)` then one element named `name` with text `s`, otherwise nothing: an empty or "0" string gives no element. |
| ReportBuilder.AppendOptionalLeaf | plugins/reports/counter/classes/COUNTER/Vendor.php:128-133 | appending an optional element adds exactly OptionalLeaf at the end of the children. |
| ReportBuilder.OpaqueDoms | plugins/reports/counter/classes/COUNTER/Customer.php:165-167 | the trees of the opaque objects, one per object, in order. |
| ReportBuilder.OpaqueListValidates | plugins/reports/counter/classes/COUNTER/ReportBuilder.php:122-128 | a list of opaque objects of one class passes that class's zero-or-more check and reads back as the same objects. |
| ReportBuilder.OpaqueListValidatesOneOrMore | plugins/reports/counter/classes/COUNTER/ReportBuilder.php:101-110 | a list of opaque objects of one class passes that class's one-or-more check and reads back as the same objects. |
| ReportBuilder.OpaqueListBuilds | plugins/reports/counter/classes/COUNTER/ReportBuilder.php:229-242 | inputs that the class's build turns into given objects build, through buildMultiple, to the list of those objects. |
| ReportBuilder.ZeroOrMoreOpaques | plugins/reports/counter/classes/COUNTER/ReportBuilder.php:122-128 | validateZeroOrMoreOf for an opaque class: it fails exactly when that check fails, with the same error, and otherwise gives the objects it accepted, in order. |
| ReportBuilder.OneOrMoreOpaques | plugins/reports/counter/classes/COUNTER/ReportBuilder.php:101-110 | validateOneOrMoreOf for an opaque class: it fails exactly when that check fails, with the same error, and otherwise gives the objects it accepted, in order. |
| ReportBuilder.ZeroOrMoreContacts | plugins/reports/counter/classes/COUNTER/ReportBuilder.php:122-128 | validateZeroOrMoreOf(…, 'Contact'): same outcome and error, read back as the contacts it accepted, in order. |
| ReportBuilder.ZeroOrMoreItemContributorIds | plugins/reports/counter/classes/COUNTER/ReportBuilder.php:122-128 | validateZeroOrMoreOf(…, 'ItemContributorId'), read back as the identifiers it accepted. |
| ReportBuilder.ZeroOrMoreItemContributors | plugins/reports/counter/classes/COUNTER/ReportBuilder.php:122-128 | validateZeroOrMoreOf(…, 'ItemContributor'), read back as the contributors it accepted. |
| ReportBuilder.ZeroOrMoreItemDates | plugins/reports/counter/classes/COUNTER/ReportBuilder.php:122-128 | validateZeroOrMoreOf(…, 'ItemDate'), read back as the dates it accepted. |
| ReportBuilder.OneOrMoreCustomers | plugins/reports/counter/classes/COUNTER/ReportBuilder.php:101-110 | validateOneOrMoreOf(…, 'Customer'), read back as the customers it accepted. |
| ReportBuilder.OneOrMoreReports | plugins/reports/counter/classes/COUNTER/ReportBuilder.php:101-110 | validateOneOrMoreOf(…, 'Report'), read back as the reports it accepted. |
| ReportBuilder.OneReport | plugins/reports/counter/classes/COUNTER/ReportBuilder.php:58-89 | validateOneOf(…, 'Report'): same outcome and error, and what it accepts is the given Report object. |
| ReportBuilder.OneDateRange | plugins/reports/counter/classes/COUNTER/ReportBuilder.php:58-89 | validateOneOf(…, 'DateRange'): same outcome and error, and what it accepts is the given DateRange object. |
| ReportBuilder.OneVendor | plugins/reports/counter/classes/COUNTER/ReportBuilder.php:58-89 | validateOneOf(…, 'Vendor'): same outcome and error, and what it accepts is the given Vendor object. |
| ReportBuilder.ZeroOrOneConsortium | plugins/reports/counter/classes/COUNTER/ReportBuilder.php:140-146 | validateZeroOrOneOf(…, 'Consortium'): same outcome and error; no consortium exactly when the value is empty, otherwise the given Consortium object. |
| ReportBuilder.BuildFailure | plugins/reports/counter/classes/COUNTER/ReportBuilder.php:353-356 | the inherited `build` always fails, naming the class and the data. |
| Php.Truthy | plugins/reports/counter/classes/COUNTER/ReportBuilder.php:124 | a value is empty (`empty()` holds, `if` fails) exactly when it is null, false, 0, "", "0" or the empty array; objects and every other value are truthy. |
| Php.IntVal | plugins/reports/counter/classes/COUNTER/ReportBuilder.php:159 | `intval()` keeps an integer as it is, gives 0 for every empty value, and gives a value in the 64-bit range for anything else. |
| Php.OrEmpty | plugins/reports/counter/classes/COUNTER/Contact.php:84 | `$x ? $x : ''`: a truthy value as it is, anything else ''. |
| Php.Assign | plugins/reports/counter/classes/COUNTER/Contact.php:80 | after `$a[k] = v`, key k reads v and every other key reads as before. |
| Php.Unset | plugins/reports/counter/classes/COUNTER/Contact.php:81 | after `unset($a[k])`, key k is gone and every other key reads as before. |
| Contact.New | plugins/reports/counter/classes/COUNTER/Contact.php:60-65 | succeeds exactly when contact and email are strings, and stores them. A non-string contact fails first; then a non-string email fails. |
| Contact.RenameEmail | plugins/reports/counter/classes/COUNTER/Contact.php:79-82 | when `E-mail` is set, it is gone afterwards, `Email` holds its value and every other key is unchanged; otherwise the array is unchanged. |
| Contact.EmailAlias | plugins/reports/counter/classes/COUNTER/Contact.php:79-82 | an input with `E-mail` builds exactly as the renamed input, with the address under `Email`. |
| Contact.Build | plugins/reports/counter/classes/COUNTER/Contact.php:105-114 | a bare string is the e-mail when it is a valid address and the name otherwise; a value that is neither an array nor a string fails. |
| Contact.BuildFromFields | plugins/reports/counter/classes/COUNTER/Contact.php:83-85 | with `Contact` or `Email` set, the result is (Contact or '', Email or ''), and it fails exactly when a truthy one of them is not a string. |
| Contact.BuildFromSingleKey | plugins/reports/counter/classes/COUNTER/Contact.php:86-95 | a one-key array k => v gives (v, k) when k is a valid e-mail and (k, v) otherwise; it fails exactly when v is not a string. |
| Contact.BuildFromSingleElement | plugins/reports/counter/classes/COUNTER/Contact.php:96-104 | a one-element list [x] gives ('', x) when x is a valid e-mail and (x, '') otherwise. A single entry under an integer key other than 0 reads `$array[0]` as null and fails. |
| Contact.BuildRejectsOtherArrays | plugins/reports/counter/classes/COUNTER/Contact.php:114 | any other array, such as two elements or several keys without Contact or Email, fails through the default build. |
| Contact.Dom | plugins/reports/counter/classes/COUNTER/Contact.php:122-133 | a Contact element with a Contact child if the name is set, then an E-mail child if the address is set, and nothing else. |
| Contact.ScenarioAddressKey | plugins/reports/counter/classes/COUNTER/Contact.php:89-91 | `"a@example.com" => "Jane Doe"` is the contact Jane Doe at that address, rendered with a Contact and an E-mail child. |
| Contact.RoundTrip | plugins/reports/counter/classes/COUNTER/Contact.php:76-133 | building the canonical array of a contact gives it back, with a "0" field read as ''; the result renders exactly as the original. |
| Contact.ListBuilds | plugins/reports/counter/classes/COUNTER/ReportBuilder.php:229-242 | a list of canonical contact arrays builds, through buildMultiple, to the contacts in order. |
| Contact.NormalisedDoms | plugins/reports/counter/classes/COUNTER/Contact.php:122-133 | reading "0" fields as '' does not change how a list of contacts renders. |
| Contact.ListValidates | plugins/reports/counter/classes/COUNTER/Vendor.php:80 | a list of Contact objects passes the zero-or-more Contact check as the same contacts. |
| Contact.DomsNames | plugins/reports/counter/classes/COUNTER/Vendor.php:123-127 | a list of contacts renders as one Contact element each. |
| Consortium.New | plugins/reports/counter/classes/COUNTER/Consortium.php:58-63 | succeeds exactly when the name and the code are strings, and stores them. A non-string name fails first with its type; with a string name, a non-string code fails with the code's type. |
| Consortium.Build | plugins/reports/counter/classes/COUNTER/Consortium.php:90-94 | a bare string is the well-known name with code ''; a value that is neither an array nor a string fails. |
| Consortium.BuildFromFields | plugins/reports/counter/classes/COUNTER/Consortium.php:77-80 | with WellKnownName set, the result is (WellKnownName, Code or ''); it fails exactly when the name, or a truthy code, is not a string. |
| Consortium.BuildFromSingleKey | plugins/reports/counter/classes/COUNTER/Consortium.php:81-85 | a one-key array k => v gives name k and code v, and fails exactly when v is not a string. |
| Consortium.BuildFromSingleElement | plugins/reports/counter/classes/COUNTER/Consortium.php:86-89 | a one-element list [x] gives name x and code '', and fails exactly when x is not a string. |
| Consortium.BuildRejectsOtherArrays | plugins/reports/counter/classes/COUNTER/Consortium.php:94 | an array without WellKnownName and with other than one entry fails through the default build. |
| Consortium.Dom | plugins/reports/counter/classes/COUNTER/Consortium.php:102-111 | a Consortium element with a Code child only when the code is set, then a WellKnownName child always, last. |
| Consortium.RoundTrip | plugins/reports/counter/classes/COUNTER/Consortium.php:74-111 | building the canonical array gives the consortium back, with a "0" code read as ''; it renders exactly as the original. |
| DateRange.New | plugins/reports/counter/classes/COUNTER/DateRange.php:60-64 | succeeds exactly when begin and end are each a DateTime or a parseable date string, storing the two dates. A bad begin fails first. |
| DateRange.Build | plugins/reports/counter/classes/COUNTER/DateRange.php:75-88 | a non-array fails. |
| DateRange.BuildFromFields | plugins/reports/counter/classes/COUNTER/DateRange.php:78-81 | with Begin and End set, the result is the constructor applied to them. |
| DateRange.BuildFromPair | plugins/reports/counter/classes/COUNTER/DateRange.php:82-85 | a two-element list [a, b] gives the constructor applied to a and b. |
| DateRange.BuildRejectsOtherArrays | plugins/reports/counter/classes/COUNTER/DateRange.php:87 | an array without both keys that is not a two-element list (one element, three, or any string key) fails. |
| DateRange.Dom | plugins/reports/counter/classes/COUNTER/DateRange.php:95-102 | a Period element with Begin then End, each the date formatted Y-m-d. |
| DateRange.RoundTrip | plugins/reports/counter/classes/COUNTER/DateRange.php:60-88 | building the canonical array of two DateTime objects gives the same period. |
| Dates.YearText | plugins/reports/counter/classes/COUNTER/DateRange.php:99-100 | the `Y` field is all digits and at least four long. |
| Dates.FormatYmd | plugins/reports/counter/classes/COUNTER/DateRange.php:99-100 | `date_format(…, 'Y-m-d')` is exactly six characters longer than the year's digits. |
| Dates.FormatYmdParts | plugins/reports/counter/classes/COUNTER/DateRange.php:99-100 | the text is the year's digits, '-', the month's two digits, '-', then the day's two digits. |
| Dates.FormatYmdInjective | plugins/reports/counter/classes/COUNTER/ItemDate.php:105 | `Y-m-d` loses nothing: two dates that format to the same text are the same date. |
| Dates.YearTextInjective | plugins/reports/counter/classes/COUNTER/ItemDate.php:105 | different years give different `Y` texts. |
| Decimal.PadLeftValue | plugins/reports/counter/classes/COUNTER/ItemDate.php:105 | the zero-padded decimal form of a number reads back as that number. |
| Decimal.NatToString | plugins/reports/counter/classes/COUNTER/Metric.php:150 | the text of a year is non-empty decimal digits with no leading zero. |
| Decimal.NatToStringRoundTrip | plugins/reports/counter/classes/COUNTER/Metric.php:150-152 | the digits read back as the number. |
| ItemContributorId.New | plugins/reports/counter/classes/COUNTER/ItemContributorId.php:60-68 | succeeds exactly when type and value are strings and the type is ORCID, ISNI or Proprietary. A string type outside that list fails, naming the type. |
| ItemContributorId.Build | plugins/reports/counter/classes/COUNTER/ItemContributorId.php:79-94 | a non-array fails, and every success has a listed type. |
| ItemContributorId.BuildFromFields | plugins/reports/counter/classes/COUNTER/ItemContributorId.php:82-85 | with Type and Value set, the result is the constructor applied to them. |
| ItemContributorId.BuildFromSingleKey | plugins/reports/counter/classes/COUNTER/ItemContributorId.php:86-91 | a one-key array k => v gives (k, v), and fails unless v is a string and k a listed type. |
| ItemContributorId.BuildRejectsOtherArrays | plugins/reports/counter/classes/COUNTER/ItemContributorId.php:93 | any other array fails through the default build. |
| ItemContributorId.Dom | plugins/reports/counter/classes/COUNTER/ItemContributorId.php:101-108 | an ItemContributorID element with exactly a Type child, then a Value child. |
| ItemContributorId.RoundTrip | plugins/reports/counter/classes/COUNTER/ItemContributorId.php:79-94 | building the canonical array of an identifier with a listed type gives it back. |
| ItemContributorId.OnlyListedTypes | plugins/reports/counter/classes/COUNTER/ItemContributorId.php:65-67 | an identifier whose type is not ORCID, ISNI or Proprietary cannot be built; the error names the type. |
| ItemContributorId.ListValidates | plugins/reports/counter/classes/COUNTER/ItemContributor.php:72 | a list of ItemContributorId objects passes the zero-or-more check as the same identifiers. |
| ItemContributorId.ListRoundTrip | plugins/reports/counter/classes/COUNTER/ReportBuilder.php:229-242 | a list of canonical identifier arrays builds to the identifiers in order. |
| ItemDate.New | plugins/reports/counter/classes/COUNTER/ItemDate.php:60-67 | succeeds exactly when the type is a string in PubDate, FirstAccessedOnline or Proprietary and the value is a DateTime or a parseable date. A type outside the list fails, naming it. |
| ItemDate.DateStringValue | plugins/reports/counter/classes/COUNTER/ItemDate.php:66 | a date string is stored as the date it parses to; an unparseable one fails with validateOneOf's unparsable-string error. |
| ItemDate.Build | plugins/reports/counter/classes/COUNTER/ItemDate.php:78-93 | a non-array fails, and every success has a listed type. |
| ItemDate.BuildFromFields | plugins/reports/counter/classes/COUNTER/ItemDate.php:81-84 | with Type and Value set, the result is the constructor applied to them. |
| ItemDate.BuildFromSingleKey | plugins/reports/counter/classes/COUNTER/ItemDate.php:85-90 | a one-key array k => v gives (k, date of v); it succeeds exactly when k is a listed type and v a date. |
| ItemDate.BuildRejectsOtherArrays | plugins/reports/counter/classes/COUNTER/ItemDate.php:92 | any other array fails through the default build. |
| ItemDate.Dom | plugins/reports/counter/classes/COUNTER/ItemDate.php:100-107 | an ItemDate element with a Type child, then a Value child holding the date formatted Y-m-d. |
| ItemDate.RoundTrip | plugins/reports/counter/classes/COUNTER/ItemDate.php:78-93 | building the canonical array of a date with a listed type gives it back. |
| ItemDate.ListValidates | plugins/reports/counter/classes/COUNTER/ParentItem.php:94 | a list of ItemDate objects passes the zero-or-more ItemDate check as the same dates. |
| ItemDate.ListRoundTrip | plugins/reports/counter/classes/COUNTER/ReportBuilder.php:229-242 | a list of canonical date arrays builds to the dates in order. |
| ItemContributor.New | plugins/reports/counter/classes/COUNTER/ItemContributor.php:70-76 | succeeds exactly when the ids pass the zero-or-more ItemContributorId check, the name is a string, and affiliations and roles pass validateStrings; it stores what those checks return. |
| ItemContributor.Build | plugins/reports/counter/classes/COUNTER/ItemContributor.php:87-102 | a non-array, or an array with none of the four keys, fails. |
| ItemContributor.BuildDefaults | plugins/reports/counter/classes/COUNTER/ItemContributor.php:92-98 | with a field set: an unset affiliation or role becomes `['']`, an unset name '', unset ids `[]`, and a set affiliation is what validateStrings makes of it. |
| ItemContributor.BuildFromNameOnly | plugins/reports/counter/classes/COUNTER/ItemContributor.php:95-97 | a contributor given only a name has no ids, one empty affiliation and one empty role. |
| ItemContributor.Dom | plugins/reports/counter/classes/COUNTER/ItemContributor.php:109-132 | an ItemContributor element with no attributes. |
| ItemContributor.DomOrder | plugins/reports/counter/classes/COUNTER/ItemContributor.php:112-130 | the children are one ItemContributorID per id, ItemContributorName only when the name is set, then one element per affiliation and per role, in list order. |
| ItemContributor.NameOnlyRendersEmptyElements | plugins/reports/counter/classes/COUNTER/ItemContributor.php:95-97 | a contributor built from a name alone renders its name followed by an empty ItemContributorAffiliation and an empty ItemContributorRole. |
| ItemContributor.AsDOMDocument | plugins/reports/counter/classes/COUNTER/ItemContributor.php:109-132 | the three `foreach` loops build exactly Dom. |
| ItemContributor.RoundTrip | plugins/reports/counter/classes/COUNTER/ItemContributor.php:87-102 | building the canonical array of a contributor whose ids have listed types gives it back. |
| ItemContributor.ListValidates | plugins/reports/counter/classes/COUNTER/ParentItem.php:93 | a list of ItemContributor objects passes the zero-or-more ItemContributor check as the same contributors. |
| ItemContributor.ListRoundTrip | plugins/reports/counter/classes/COUNTER/ReportBuilder.php:229-242 | a list of canonical contributor arrays builds to the contributors in order. |
| Xml.ValueElement | plugins/reports/counter/classes/COUNTER/ItemContributor.php:123 | `createElement(name, value)` for a value without `&`: an element with no attributes that has the value as its text child, and no child when the value is empty. How libxml reads `&` in that argument is not modelled (see Left out). |
| Xml.AppendAll | plugins/reports/counter/classes/COUNTER/Vendor.php:123-127 | a `foreach` appending each tree appends the whole list, in order. |
| Vendor.New | plugins/reports/counter/classes/COUNTER/Vendor.php:75-81 | succeeds exactly when id, name, webSiteUrl and logoUrl are strings and the contacts pass the zero-or-more Contact check; stores them. A non-string id fails first. An empty contacts value gives no contacts. |
| Vendor.Build | plugins/reports/counter/classes/COUNTER/Vendor.php:92-108 | a non-array or an array without ID fails. |
| Vendor.BuildFromIdOnly | plugins/reports/counter/classes/COUNTER/Vendor.php:95-104 | an array with only a string ID builds to that ID, no contacts and empty name, web site and logo. |
| Vendor.BuildFromFields | plugins/reports/counter/classes/COUNTER/Vendor.php:95-104 | with ID set, the ID is taken as given. An unset Name, WebSiteUrl or LogoUrl is '', and an unset Contact gives no contacts. When the contacts build, a non-string ID fails with its type. |
| Vendor.Dom | plugins/reports/counter/classes/COUNTER/Vendor.php:115-135 | a Vendor element with no attributes. |
| Vendor.DomOrder | plugins/reports/counter/classes/COUNTER/Vendor.php:117-134 | the children are Name?, ID, Contact*, WebSiteUrl?, LogoUrl?, each optional one present exactly when set, and the ID element always present. |
| Vendor.AsDOMDocument | plugins/reports/counter/classes/COUNTER/Vendor.php:115-135 | the straight-line appends and the contacts loop build exactly Dom. |
| Vendor.RoundTrip | plugins/reports/counter/classes/COUNTER/Vendor.php:75-135 | building the canonical array of a vendor gives it back, with "0" contact fields read as ''; the result renders exactly as the original. |
| Customer.New | plugins/reports/counter/classes/COUNTER/Customer.php:90-99 | succeeds exactly when the four scalars are strings, the report items pass the one-or-more ReportItems check, the contacts the zero-or-more Contact check, the consortium the zero-or-one Consortium check and the identifiers the zero-or-more Identifier check. It stores what they return. A non-string id fails first, and null report items fail as a missing object. |
| Customer.BuildConsortium | plugins/reports/counter/classes/COUNTER/Customer.php:125 | no Consortium key gives null; otherwise Consortium::build of its value, which may fail. |
| Customer.BuildConsortiumFromString | plugins/reports/counter/classes/COUNTER/Customer.php:125 | a Consortium given as a string is that well-known name with no code. |
| Customer.Build | plugins/reports/counter/classes/COUNTER/Customer.php:110-131 | a non-array, or an array without both ID and ReportItems, fails. |
| Customer.BuildWithNoReportItems | plugins/reports/counter/classes/COUNTER/Customer.php:113-127 | an ID with an empty ReportItems list builds, because the one-or-more check accepts an empty array, giving empty optional fields. |
| Customer.Dom | plugins/reports/counter/classes/COUNTER/Customer.php:138-169 | a Customer element with no attributes whose children include the ID element. |
| Customer.HeadOrder | plugins/reports/counter/classes/COUNTER/Customer.php:142-159 | the customer's own children are Name?, ID, Contact*, WebSiteUrl?, LogoUrl?, Consortium?, each optional one present exactly when set. |
| Customer.DomOrder | plugins/reports/counter/classes/COUNTER/Customer.php:140-168 | the full child order: the fields above, then the institutional identifiers, then the report items. |
| Customer.DomEndsWithReportItems | plugins/reports/counter/classes/COUNTER/Customer.php:165-167 | the last children are the report items' trees, in order. |
| Customer.AsDOMDocument | plugins/reports/counter/classes/COUNTER/Customer.php:138-169 | the conditional appends and the three loops build exactly Dom. |
| Customer.RoundTrip | plugins/reports/counter/classes/COUNTER/Customer.php:90-131 | the canonical array builds back to the customer. The inputs are those its report items and identifiers were built from, and "0" contact fields and a "0" consortium code are read as ''. The result renders exactly as the original. |
| Customer.ConsortiumValidates | plugins/reports/counter/classes/COUNTER/Customer.php:97 | a Consortium object, or null, passes the zero-or-one Consortium check as that consortium, or as none. |
| Customer.ContactsValidate | plugins/reports/counter/classes/COUNTER/Customer.php:96 | a list of Contact objects passes the zero-or-more Contact check as the same contacts. |
| Customer.ListValidates | plugins/reports/counter/classes/COUNTER/Report.php:94 | a list of Customer objects passes the one-or-more Customer check as the same customers. |
| ParentItem.New | plugins/reports/counter/classes/COUNTER/ParentItem.php:85-97 | succeeds exactly when name, data type and publisher are strings, the data type is one of the seven item data types, and the four lists pass their zero-or-more checks; stores them. An unlisted data type fails, naming it. |
| ParentItem.ItemDataTypesListed | plugins/reports/counter/classes/COUNTER/ReportBuilder.php:251-254 | the item data types are exactly Journal, Database, Platform, Book, Collection, Multimedia and Article. |
| ParentItem.Build | plugins/reports/counter/classes/COUNTER/ParentItem.php:108-129 | a non-array, or an array without both ItemName and ItemDataType, fails; every success has a listed data type. |
| ParentItem.BuildFromNameAndType | plugins/reports/counter/classes/COUNTER/ParentItem.php:111-125 | ItemName and ItemDataType alone give empty lists and publisher '' when the type is listed, and fail naming the type otherwise. |
| ParentItem.Dom | plugins/reports/counter/classes/COUNTER/ParentItem.php:160-164 | the last two children are always ItemName and ItemDataType with their values. |
| ParentItem.DomOrder | plugins/reports/counter/classes/COUNTER/ParentItem.php:138-165 | the children are Identifier*, ItemContributor*, ItemDate*, ItemAttribute*, ItemPublisher only when set, then ItemName and ItemDataType. |
| ParentItem.AsDOMDocument | plugins/reports/counter/classes/COUNTER/ParentItem.php:136-166 | the four loops and the appends build exactly Dom. |
| ParentItem.RoundTrip | plugins/reports/counter/classes/COUNTER/ParentItem.php:85-129 | building the canonical array of an item with a listed data type gives it back, its identifiers and attributes built from the given inputs. |
| Metric.OptionalYear | plugins/reports/counter/classes/COUNTER/Metric.php:91-99 | a falsy year is left unset. A truthy one is stored as its intval(), and fails when that is negative. |
| Metric.New | plugins/reports/counter/classes/COUNTER/Metric.php:83-100 | succeeds exactly when the period is a DateRange object, the category a listed string, the instances pass the one-or-more PerformanceCounter check and the three years pass OptionalYear; stores them. A string category outside the list fails, naming it. |
| Metric.CategoriesListed | plugins/reports/counter/classes/COUNTER/ReportBuilder.php:315-318 | the categories are exactly Requests, Searches and Access_denied. |
| Metric.Build | plugins/reports/counter/classes/COUNTER/Metric.php:111-128 | a non-array, or an array missing Period, Instance or Category, fails; every success has a listed category. |
| Metric.Dom | plugins/reports/counter/classes/COUNTER/Metric.php:135-157 | an ItemPerformance element whose first child is the Period tree. |
| Metric.DomOrder | plugins/reports/counter/classes/COUNTER/Metric.php:138-155 | the children are Period, Category when set, the instances, then PubYr, PubYrFrom and PubYrTo, each when set and not 0. |
| Metric.Render | plugins/reports/counter/classes/COUNTER/Metric.php:135-157 | given the period's tree, an ItemPerformance element whose first child is that tree. |
| Metric.RenderOrder | plugins/reports/counter/classes/COUNTER/Metric.php:138-155 | around any Period tree, the children are Period, Category when set, the instances, then the shown years in the order PubYr, PubYrFrom, PubYrTo. |
| Metric.RenderAround | plugins/reports/counter/classes/COUNTER/Metric.php:135-157 | the method that appends around an already rendered period builds exactly Render. |
| Metric.CategoryRendered | plugins/reports/counter/classes/COUNTER/Metric.php:142-144 | a metric whose category is one of the listed ones always renders its Category right after the Period. |
| Metric.YearsRendered | plugins/reports/counter/classes/COUNTER/Metric.php:148-155 | each shown year adds an attribute, in the order PubYr, PubYrFrom, PubYrTo. The last children are elements of the same names and values, in the same order. |
| Metric.YearsMatch | plugins/reports/counter/classes/COUNTER/Metric.php:148-155 | over any list of year keys, the elements and the attributes match one for one in name and value. |
| Metric.RenderYears | plugins/reports/counter/classes/COUNTER/Metric.php:148-155 | the `foreach` over the year keys builds exactly those elements and attributes. |
| Metric.AsDOMDocument | plugins/reports/counter/classes/COUNTER/Metric.php:135-157 | the loops build exactly Dom. |
| Metric.YearRoundTrip | plugins/reports/counter/classes/COUNTER/Metric.php:91-99 | a stored year read back through the constructor is the same year, and a year of 0 comes back unset. |
| Metric.NormalisedDom | plugins/reports/counter/classes/COUNTER/Metric.php:148-155 | clearing years of 0 does not change the rendering. |
| Metric.NewCanonical | plugins/reports/counter/classes/COUNTER/Metric.php:83-100 | the constructor given a metric's own period object, category, instances and years (0 unset) rebuilds it, with years of 0 cleared. |
| Metric.RoundTrip | plugins/reports/counter/classes/COUNTER/Metric.php:83-128 | the canonical array of a metric with a listed category builds back to it, with years of 0 unset, which render the same. |
| Report.New | plugins/reports/counter/classes/COUNTER/Report.php:85-95 | succeeds exactly when the five scalars are strings, the vendor passes the one-Vendor check and the customers the one-or-more Customer check. An empty or "0" created is replaced by the current time written as `date("Y-m-d\Th:i:sP")`, with the 12-hour hour, as the code does, so the stored created is never empty. Errors come in the source's order. |
| Report.Build | plugins/reports/counter/classes/COUNTER/Report.php:106-124 | a non-array, or an array missing any of ID, Version, Name, Title, Customer or Vendor, fails. |
| Report.BuildStampsCreated | plugins/reports/counter/classes/COUNTER/Report.php:90-92 | a built report has a non-empty created: the given one when it is a truthy string, the current time in the as-written `h` format when Created is absent. |
| Report.CreatedRendered | plugins/reports/counter/classes/COUNTER/Report.php:135-140 | a constructed report renders a non-empty Created attribute first. |
| Report.Attrs | plugins/reports/counter/classes/COUNTER/Report.php:135-140 | five attributes, named Created, ID, Version, Name and Title in that order. |
| Report.Dom | plugins/reports/counter/classes/COUNTER/Report.php:131-146 | a Report element carrying those attributes. |
| Report.DomOrder | plugins/reports/counter/classes/COUNTER/Report.php:135-144 | the attributes carry created, id, version, name and title, in that order. The children are the Vendor tree, then one Customer tree per customer in list order. |
| Report.AsDOMDocument | plugins/reports/counter/classes/COUNTER/Report.php:131-146 | the attribute loop and the customers loop build exactly Dom. |
| Report.NewCanonical | plugins/reports/counter/classes/COUNTER/Report.php:85-95 | the constructor given a report's own fields and objects rebuilds it; an empty created is replaced by the as-written stamp of the current time. |
| Report.RoundTrip | plugins/reports/counter/classes/COUNTER/Report.php:85-124 | the canonical array builds back to the report, given inputs that build its vendor and customers. An empty created is stamped as the code writes it; a report with a created comes back unchanged. |
| Report.ListValidates | plugins/reports/counter/classes/COUNTER/Reports.php:58 | a list of Report objects passes the one-or-more Report check as the same reports. |
| Report.DefaultCreatedConflatesHalfDays | plugins/reports/counter/classes/COUNTER/Report.php:90-92 | with Created left empty, a report constructed in the morning and one constructed twelve hours later store the same Created text. |
| Dates.CreatedStamp | plugins/reports/counter/classes/COUNTER/Report.php:91 | the default Created stamp as intended, with a 24-hour hour, is never empty. |
| Dates.CreatedStampKeepsHour | plugins/reports/counter/classes/COUNTER/Report.php:91 | with the intended format, two instants on the same date with different hours give different stamps. |
| Dates.CreatedStampAsWritten | plugins/reports/counter/classes/COUNTER/Report.php:91 | the stamp as the source writes it, with the 12-hour `h`, is never empty. |
| Dates.CreatedStampAsWrittenConflatesHalfDays | plugins/reports/counter/classes/COUNTER/Report.php:91 | as written, a morning instant and the afternoon instant twelve hours later give the same stamp. |
| Reports.BuildList | plugins/reports/counter/classes/COUNTER/Reports.php:70-85 | a non-array fails, and an associative array without a Report key fails. |
| Reports.BuildFromReportKey | plugins/reports/counter/classes/COUNTER/Reports.php:73-77 | a list of report inputs under a Report key builds to those reports, in order. |
| Reports.BuildFromList | plugins/reports/counter/classes/COUNTER/Reports.php:78-82 | a bare list of report inputs builds to those reports, in order. |
| Reports.BuildEachReport | plugins/reports/counter/classes/COUNTER/Reports.php:78-81 | inputs that each build to a report build, through buildMultiple, to those Report objects in order, and those objects pass the one-or-more Report check as the same reports. |
| Reports.BuildEmpty | plugins/reports/counter/classes/COUNTER/Reports.php:70-85 | neither path rejects an empty list: both give a document with no reports. |
| Reports.Render | plugins/reports/counter/classes/COUNTER/Reports.php:114-125 | the root is `Reports` in the COUNTER namespace, with the single attribute xsi:schemaLocation set to the namespace followed by the Release 4.1 schema URL. |
| Reports.RenderOrder | plugins/reports/counter/classes/COUNTER/Reports.php:121-123 | the root holds one Report element per report, each the report's tree, in list order. |
| Reports.RenderAppend | plugins/reports/counter/classes/COUNTER/Reports.php:121-123 | appending a report appends its tree at the end and leaves the earlier trees in place. |
| Reports.Reports.constructor | plugins/reports/counter/classes/COUNTER/Reports.php:56-59 | the object holds the given reports. |
| Reports.Reports.New | plugins/reports/counter/classes/COUNTER/Reports.php:56-59 | succeeds exactly when every element passes the one-or-more Report check. The new object holds those reports in order; a failure carries the check's error. |
| Reports.Reports.Build | plugins/reports/counter/classes/COUNTER/Reports.php:70-85 | succeeds exactly when BuildList does, holding its reports; a failure carries its error. |
| Reports.Reports.AddReport | plugins/reports/counter/classes/COUNTER/Reports.php:94-97 | a Report object is appended at the end, and the earlier reports stay unchanged. Anything else fails with validateOneOf's error and leaves the list unchanged. |
| Reports.Reports.GetReports | plugins/reports/counter/classes/COUNTER/Reports.php:104-107 | the stored reports, in insertion order. |
| Reports.Reports.Dom | plugins/reports/counter/classes/COUNTER/Reports.php:114-125 | the object renders as the Render tree of the reports it holds. |
| Reports.Reports.AsDOMDocument | plugins/reports/counter/classes/COUNTER/Reports.php:114-125 | the loop over the stored reports builds exactly the Render tree of the list. |

## Left out

- Serialising the DOM to text is not modelled. That is `__toString`, with `saveXML` and `formatOutput`, at ReportBuilder.php:326-331, and it belongs to libxml. The model stops at the abstract tree `asDOMDocument` builds, and the DOMDocument wrapper and `importNode` are not modelled either.
- `date_create` is the parameter `Env.parseDate`, an arbitrary partial function from strings to dates. Which strings PHP accepts is not modelled.
- `filter_var(…, FILTER_VALIDATE_EMAIL)` is the parameter `Env.isEmail`, an arbitrary predicate.
- The wall clock is the parameter `Env.now`. The time-zone offset is part of that reading, and where it comes from is not modelled.
- ReportItems, PerformanceCounter, Identifier and ItemAttribute are not part of this model. Their objects are known only by their class and by the tree they render to. Their `build` is the parameter `Env.buildOpaque`.
- PHP reflection (`get_class`, `is_subclass_of`, `$$arg`) is a closed set of object kinds with their class names. The core has no subclasses, so `is_subclass_of` never adds a case. The constructors' `foreach` over argument names is written out as straight-line checks in the same order.
- `get_class()` on an integer or boolean raises a TypeError in PHP. The model reports it as the error `NotAnObject`.
- Exception message texts are not modelled. Each failure carries the error kind and the values its message names.
- The base `asDOMDocument` that throws (ReportBuilder.php:339-342) is not modelled: every class of the core overrides it.
- Xml.ValueElement: `createElement(name, value)` is modelled as an element holding `value` as literal text, the same as `createTextNode`. libxml instead parses entity and character references in that argument: `&amp;` becomes `&`, and a bare `&`, as in "Smith & Sons", is reported as an unterminated entity and the text is cut short. Values containing `&` are therefore not modelled faithfully.
- ItemContributor.DomOrder: the affiliation and role elements (ItemContributor.php:123,128) carry their values through Xml.ValueElement, so for a value containing `&` their text differs from the source's as described in the line above. The element names and their order, which the lemma states, are not affected. ItemContributor.Dom and ItemContributor.AsDOMDocument share the same gap.
- ReportBuilder.ValidateOneOrMoreOf, Reports.Reports.GetReports and Reports.Reports.AddReport keep only the values, in order. PHP keeps an accepted array's own keys (ReportBuilder.php:107), and `$this->report[] = …` (Reports.php:96) appends after the largest integer key. So `getReports()` on `new Reports([5 => $r])` returns an array keyed 5, where the model returns `[r]`. The rendered document is the same.
- The class autoloader in COUNTER.php is not part of this model, since it is file-system plumbing.
- ReportBuilder.ValidateOneOrMoreOf: it accepts an empty array, as the code does, so a Customer with no report items and a Reports document with no reports both build. The class documentation calls these lists "one or more"; the model follows the code.
- ReportBuilder.ValidateZeroOrMoreOf: PHP returns null for an empty value, and the model returns the empty list instead. Both are falsy and render nothing, so no observable behaviour changes.
- ReportBuilder.ValidateStrings: the same holds for an empty non-array value, which PHP turns into null and the model into the empty list.
- The remaining `get*Types` lists are stated as constants but not used by any constructor of the core. These are `getIdentifierTypes`, `getAttributeTypes` and `getMetricTypes`, and the source does not check against them either.
- Dates.FormatYmd: years before year 0 are not modelled. A date is a year, month and day only. Time of day and time zone matter only for the Created stamp.
- Php.StringToInt: `intval()` of a string is modelled for leading whitespace, an optional sign and decimal digits, saturated to the 64-bit range. Exponent and other numeric-string forms are not modelled, and floats are not among the modelled values.
- Customer.RoundTrip: the canonical input gives the consortium as its WellKnownName/Code array (Consortium.ToRaw), or null when there is none. The other consortium shapes are covered by the Consortium lemmas.
- Nodes.Key: an array is any list of entries, and the model does not enforce PHP's key rules. In PHP, keys are distinct and a canonical integer string such as "123" is stored as an integer key. So lemmas such as Consortium.BuildFromSingleKey also state results for entry lists no PHP array can be, such as `[StrKey("123") => v]`. For every array PHP can hold, those results are the source's.

## Findings

| source | as written | input that shows it | evidently intended | confidence | as-written member | corrected member |
|---|---|---|---|---|---|---|
| plugins/reports/counter/classes/COUNTER/Report.php:91 | the default Created stamp is `date("Y-m-d\Th:i:sP")`. `h` is the 12-hour hour with no am/pm marker. | a report constructed without Created at 13:05:00 and one at 01:05:00 on the same date both get the hour text `01` | the ISO 8601 timestamp `date("Y-m-d\TH:i:sP")`, with the 24-hour `H` | not executed | Dates.CreatedStampAsWrittenConflatesHalfDays | Dates.CreatedStampKeepsHour |

Report's constructor (`Report.New`) is modelled as the code is written: an empty Created gets `Dates.CreatedStampAsWritten`. `Report.DefaultCreatedConflatesHalfDays` carries the discrepancy up to the constructor. `Dates.CreatedStamp` is the corrected stamp, and `Dates.CreatedStampKeepsHour` is proved about it.

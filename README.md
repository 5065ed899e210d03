# Lighthouse client core, modelled in Dafny

This project models the deterministic core of `lighthouse.py`, a small
Python 2 client for the Lighthouse issue tracker's XML API. The modelled
parts are:

- **Field coercion.** `parse_field`, `parse_array` and the `parse_*`
  converters turn a parsed XML node into a name, a value and a declared
  type. Modules `Coercion` and `CoercionFacts`, with `Decimal` for
  `int(s, 10)` and `str(i)`.
- **Hydration loops.** These copy a response's child fields onto new
  or existing objects: projects, tickets (one page, or a full ticket),
  the token's user, and members with their nested sub-blocks. Modules
  `Hydration` and `Entities`, with the shared shapes in `Assoc` and
  `Runs`.
- **The `Lighthouse` client object** (module `Client`):
  - the lazily loaded `projects` cache;
  - `get_project`'s first-match lookup (module `Lookup`);
  - `get_tickets`' argument checks and entry count;
  - the 30-per-page loop of `get_all_tickets` (module `Pagination`);
  - the `fetch_*` loops over all projects;
  - `add_ticket`'s choice of target project and its creation document;
  - the URL and token checks of `_get_data` and `_post_data`, and the
    rule that a POST answered with an HTTP error of status 201 is a
    success (module `Transport`).

The network is taken out. A client is built over a total function
`server: Request -> Reply`, fixed when it is constructed. Every
operation's result is stated in terms of what `server` replies. The
ghost field `requests` records, in order, each request the client
actually sent.

Python's exceptions are the closed datatype `Errors.Error`, carried by
`Result` and `Outcome`. An object whose attributes Python sets with
`setattr` is a class with an `attrs: map<string, Value>` field. Field
names received from the server are recorded in `fields`.

Loops that change state are methods with loop invariants. Each is proved
against a function on values that states what the loop computes:
`Fields`, `MemberFields`, `PagePairs`, `ProjectRun`, `MemberRun`, `Walk`
and `Sweep`. Lemmas then state that function's properties over all
inputs.

In one place the code and its documented intent disagree, and the model
follows the code. `add_ticket` is meant to report an identifier that
names no project with a "Couldn't find a project" error. The code reads
`project.id` before it tests `project is None`, so such a call fails
with an AttributeError on `id` instead. `Client.Target` and
`Client.Lighthouse.AddTicket` reproduce that.

## Model

| member | source | states |
|---|---|---|
| Values.PyStr | lighthouse.py:52 | `str(v)` exists for every scalar and gives a string's own text back |
| Values.FormatInt | lighthouse.py:208 | `'%d'` accepts exactly ints and bools; an int prints as itself; anything else is a TypeError |
| Values.PyEq | lighthouse.py:52 | Python `==` holds between equal values and between a bool and the int it stands for |
| Values.GetAttr | lighthouse.py:286 | attribute access succeeds exactly on present names, with their value; otherwise AttributeError naming the attribute |
| Xml.Entries | lighthouse.py:142 | `get('children', ())` is the child list when present and empty when absent |
| Decimal.ParseDigitsAccepts | lighthouse.py:426 | a digit run parses exactly when it is non-empty and all digits |
| Decimal.ParseIntAccepts | lighthouse.py:426 | `int(s, 10)` succeeds exactly on an optionally signed non-empty digit run |
| Decimal.DigitsRoundTrip | lighthouse.py:426 | reading back the digits of a natural number gives the number |
| Decimal.IntRoundTrip | lighthouse.py:426 | `int(str(i), 10) == i` for every integer |
| Decimal.LeadingZero | lighthouse.py:426 | a leading zero does not change the value of a digit run |
| Decimal.PaddedDigits | lighthouse.py:426 | any number of zeros before the digits of `n` still read back as `n` |
| Decimal.SignedDigits | lighthouse.py:426 | a digit run reads as its number bare or after '+', and as its negation after '-' |
| Decimal.PaddedLiteral | lighthouse.py:426 | `int(s, 10)` of zeros then the digits of `n` is `n`; after '+' it is `n`, after '-' it is `-n` (so '-0' is 0) |
| Coercion.Normalize | lighthouse.py:146 | the name keeps its length; each hyphen becomes an underscore and every other character stays |
| Coercion.ParseField | lighthouse.py:379-399 | a successful coercion keeps the node's name and reports its declared type |
| CoercionFacts.BooleanField | lighthouse.py:421-422 | a `boolean` field never fails and is true exactly for 'true', 'True' and '1' |
| CoercionFacts.IntegerField | lighthouse.py:425-426 | an `integer` field is None for empty text; it fails exactly on non-literals, with that text; it reads back any `str(i)` as `i` |
| CoercionFacts.IntegerFieldPadded | lighthouse.py:425-426 | an `integer` field with leading zeros is the number its digits denote; with a '+' sign the same number, with '-' its negation |
| CoercionFacts.NilField | lighthouse.py:418 | a `nil` field is None without text; with text, the argument-less converter fails |
| CoercionFacts.ParseFieldFails | lighthouse.py:386-399 | coercion fails exactly when: an array's items fail; or text is present, the type is not empty, `datetime` or `array`, and the converter is missing, is `nil` or `field`, or rejects the text |
| CoercionFacts.ParseFieldValue | lighthouse.py:389-399 | the value by declared type: array items, datetime and string text, None without text, raw text without a type |
| CoercionFacts.CoercedSticks | lighthouse.py:144-146 | once the field loop fails, later children change nothing |
| CoercionFacts.CoercedStep | lighthouse.py:144-146 | the field loop takes one more child by what `parse_field` makes of it: it stops with that error, or writes the normalised name with the value |
| CoercionFacts.CoercedAll | lighthouse.py:144-146 | a field loop that does not fail writes one (normalised name, coerced value) pair per child, in order |
| CoercionFacts.CoercedFails | lighthouse.py:144-146 | the field loop fails exactly when some child fails, and with the first failing child's error |
| CoercionFacts.CoercedNamesNormal | lighthouse.py:146 | no name the field loop writes contains a hyphen |
| CoercionFacts.ParseArrayItems | lighthouse.py:402-411 | `parse_array` succeeds exactly when the items exist and all coerce; then one dict per item, in order |
| CoercionFacts.ArrayItemsSucceed | lighthouse.py:405-410 | the item loop over a prefix succeeds exactly when every item in it coerces |
| CoercionFacts.ArrayItemsAll | lighthouse.py:405-410 | a successful item loop over a prefix has one dict per item, built from that item's pairs |
| CoercionFacts.EmptyArray | lighthouse.py:389-390 | an array with an empty item list is `[]`; one without a children entry is a KeyError |
| Hydration.HydrateFlat | lighthouse.py:216-221 | the loop writes each coerced field under its normalised name and optionally records the name; it stops at the first failure, keeping earlier writes |
| Hydration.HydrateMemberChild | lighthouse.py:266-280 | one member child is a dict of its normalised sub-fields under the raw name, or a leaf value under the normalised name |
| Hydration.HydrateMember | lighthouse.py:265-280 | the member loop writes and records every child's entry in order, stopping at the first failure |
| Hydration.MemberPairsStep | lighthouse.py:265-280 | the member loop takes one more child by its result |
| Hydration.MemberPairsSticks | lighthouse.py:265-280 | once the member loop fails, later children change nothing |
| Hydration.MemberPairsAll | lighthouse.py:265-280 | a member loop that does not fail writes, per child in order, a sub-block dict under the raw name or a leaf under the normalised name |
| Hydration.TicketKey | lighthouse.py:222 | storing succeeds exactly when `number` exists and is hashable, then under that value; a missing `number` is an AttributeError on it; a list or dict number is the unhashable-key TypeError |
| Hydration.PagePairsAll | lighthouse.py:211-222 | a page without error yields exactly one (number, ticket) pair per entry with children, in order, and nothing for the rest |
| Hydration.PagePairsStep | lighthouse.py:212-222 | the page loop takes one more entry by its result |
| Hydration.PagePairsSticks | lighthouse.py:212-222 | once the page loop fails, later entries change nothing |
| Hydration.ProjectRunAll | lighthouse.py:139-148 | a listing converts exactly when every entry's fields do; then one project per entry, with `name` present |
| Hydration.JsonObj | lighthouse.py:328-329 | `to_json_obj` holds exactly the recorded fields, with their attribute values |
| Hydration.JsonOfHydrated | lighthouse.py:328-329 | whatever attributes an object started with, after hydration with recorded names its JSON object is exactly the map the writes build, last write winning |
| Entities.Ticket.constructor | lighthouse.py:316-320 | a new ticket has empty `versions` and `attachments` and no recorded fields |
| Entities.Ticket.Hydrate | lighthouse.py:229-233 | the ticket's attributes and fields are extended by the field loop, and recorded fields stay attributes |
| Entities.Ticket.ToJsonObj | lighthouse.py:328-329 | the JSON keys are exactly the recorded fields, with their attribute values |
| Entities.Member.constructor | lighthouse.py:365-367 | a new member has no attributes and no fields |
| Entities.Member.Hydrate | lighthouse.py:265-280 | the member's attributes and fields are extended by the member loop |
| Entities.User.constructor | lighthouse.py:374-376 | a new user has no attributes and no fields |
| Entities.User.Hydrate | lighthouse.py:244-249 | the user's attributes and fields are extended by the field loop |
| Entities.Project.constructor | lighthouse.py:336-342 | a new project has a None name, no tickets and no members |
| Entities.Project.Hydrate | lighthouse.py:144-146 | the project's attributes are extended by the field loop; no names are recorded |
| Entities.NewTicket | lighthouse.py:215-221 | a fresh ticket's attributes are its initial ones plus the written fields |
| Entities.NewMember | lighthouse.py:264-280 | a fresh member's attributes and fields are the member loop's writes |
| Entities.NewProject | lighthouse.py:143-146 | a fresh project's attributes are a None name plus the written fields |
| Runs.RunSticks | lighthouse.py:142-147 | once a build loop fails, later elements change nothing |
| Runs.RunAll | lighthouse.py:142-147 | a build loop keeps exactly the results before the first failure, and fails exactly when an element fails, with that error |
| Runs.SweepPasses | lighthouse.py:109-126 | a per-project loop whose every call passes visits all and passes |
| Runs.SweepFailsAt | lighthouse.py:109-126 | a per-project loop stops right after the first failing call, with its error |
| Runs.SweepStops | lighthouse.py:109-126 | the loop passes exactly when every call passes; otherwise it ends on a failing call, every earlier one having passed |
| Entities.AppendedSnoc | lighthouse.py:281 | appending one member adds its value at the end of the appended values |
| Lookup.FindFrom | lighthouse.py:51-52 | a found index lies in the scanned range |
| Lookup.FindProject | lighthouse.py:49-54 | a found index is a position of the project list |
| Lookup.FindFromFound | lighthouse.py:51-52 | a scan's match matches, and no earlier project does |
| Lookup.FindFromNone | lighthouse.py:51-54 | the scan finds nothing exactly when no project matches and none raises |
| Lookup.FindFromFails | lighthouse.py:51-52 | a failing scan fails with the error of a project after non-matching ones |
| Lookup.FindProjectFirst | lighthouse.py:49-54 | `get_project` yields the first match in list order, None exactly when none matches, and an error only from the first project whose comparison raised |
| Lookup.IdMatchesItsString | lighthouse.py:52 | an integer id matches the integer, its decimal string and, for 1, `True` |
| Lookup.FindByNumericString | lighthouse.py:52 | "42" finds the first project with id 42 when no earlier one matches |
| Lookup.FindFromAt | lighthouse.py:51-52 | the scan returns the first matching position |
| Pagination.WalkPages | lighthouse.py:161-167 | the pages requested are `start, start+1, …`; none when start ≥ end; at most `end - start` |
| Pagination.WalkStops | lighthouse.py:161-167 | every page but the last was full; the loop fails exactly with the last page's error; it passes after a short page or at the end bound |
| Pagination.WalkToEnd | lighthouse.py:161-167 | when every page is full, all `end - start` pages are requested and the loop passes |
| Pagination.WalkOnAfter | lighthouse.py:161-167 | the paging loop resumed at `page` after the pages `done` ends with `done` followed by the pages the loop from `page` requests, and with that loop's outcome |
| Pagination.WalkBegin | lighthouse.py:158-160 | before the first turn (`c = 30`, `page = page_start`) nothing has been requested and the whole loop is still ahead |
| Transport.ReadDoc | lighthouse.py:82-83 | a body fails to parse exactly when it is malformed |
| Transport.GetCheck | lighthouse.py:76-85 | a GET fails exactly without a URL, with 'Please set url properly' |
| Transport.PostCheck | lighthouse.py:88-91 | a POST needs the URL, then the token, each with its own error |
| Transport.PostIsGetExceptCreated | lighthouse.py:98-107 | a POST reads replies as a GET does, except that an HTTP error of status 201 is read as its body; a GET fails on it |
| Transport.CreationXmlVerbatim | lighthouse.py:312-315 | body and title appear unescaped at fixed positions of the creation document |
| Transport.Text | lighthouse.py:295-298 | `'%s'` of a present string is that string |
| Client.CheckPage | lighthouse.py:202-207 | page checks in order: not a Project, then not an integer, then not positive; success exactly when all pass, with the page number |
| Client.CheckPageExamples | lighthouse.py:175-200 | the documented outcomes for pages 1, 1000, 0, -1, '1', and for non-projects; `True` is page 1 |
| Client.ProjectId | lighthouse.py:208 | `project.id` must exist, then be formatted with `%d` |
| Client.Completed | lighthouse.py:118 | a dropped result passes exactly when the call succeeded, else with its error |
| Client.LoadSent | lighthouse.py:42-47 | the `projects` property sends at most the listing request, and sends it exactly when nothing is loaded yet and a URL is set |
| Client.Stores | lighthouse.py:109-126 | one entry per project, in order: the pairs its per-project call stores |
| Client.MemberStores | lighthouse.py:109-112 | one entry per project, in order: the members its `get_members` call appends |
| Client.PagesEffectSnoc | lighthouse.py:161-167 | one more `get_tickets` call in the paging loop adds that page's requests and tickets after the earlier ones |
| Client.PagesEffectAdvance | lighthouse.py:164-166 | one more `get_tickets` call takes the requests and the ticket map from those of the earlier pages to those of the pages including this one |
| Client.SweepSentPrefix | lighthouse.py:109-126 | one more project in a `fetch_*` loop adds its call's requests after the earlier ones |
| Client.PagesSent | lighthouse.py:202-209 | for a Project with a numeric id and a URL, `get_tickets` on positive pages sends exactly one request per page, for that page, in order |
| Client.ConsecutiveSent | lighthouse.py:161-167 | calls on the pages `start, start+1, …` (`start >= 1`) send the requests for those pages, one each, in order |
| Client.WalkRequests | lighthouse.py:158-167 | `get_all_tickets` from `start >= 1` on a Project with a numeric id and a URL sends one request per visited page, for `start, start+1, …` in order |
| Client.WalkFromNonPositive | lighthouse.py:202-207 | from a start page of 0 or below, `get_all_tickets` asks for that page alone, fails on the 1-indexed check, and sends and stores nothing |
| Client.WalkSendsNothing | lighthouse.py:202-209 | without a numeric id or a URL, no page of the paging loop sends a request |
| Client.PageRequest | lighthouse.py:202-209 | the page request is issued only after the checks and the id formatting succeed |
| Client.FullTicketRequest | lighthouse.py:226 | both ids are read before either is formatted: a missing project id is an AttributeError on `id`, then a missing number one on `number`, then an id or number `%d` refuses a TypeError; success exactly when both exist and format, with the single-ticket request |
| Client.MemberRequest | lighthouse.py:256-259 | a non-Project fails; otherwise the memberships request of the formatted id |
| Client.UserRequest | lighthouse.py:240 | the token lookup, with a missing token written as 'None' |
| Client.Fetched | lighthouse.py:76-85 | without a URL, 'Please set url properly'; otherwise what the reply makes of it |
| Client.Posted | lighthouse.py:87-107 | the POST checks, then the POST reading of the reply |
| Client.BuildProjects | lighthouse.py:141-148 | one fresh, distinct project per entry with the listed attributes, no tickets, no members; any failure discards them all |
| Client.StoreEntry | lighthouse.py:214-222 | an entry with children is stored as a new ticket under its number; otherwise nothing changes |
| Client.StoreTickets | lighthouse.py:210-223 | the page's tickets are stored over the old ones, later winning; the result is the entry count or the first error |
| Client.AppendMember | lighthouse.py:264-281 | a member is appended only once fully hydrated |
| Client.AppendMembers | lighthouse.py:262-281 | members are appended in order; a failure keeps the earlier ones and reports its error |
| Client.AttrsOf | lighthouse.py:109-126 | one entry per project, in order: its attributes |
| Client.TicketLists | lighthouse.py:109-126 | one entry per project, in order: its ticket map |
| Client.MemberLists | lighthouse.py:109-126 | one entry per project, in order: its member list |
| Client.ViewsOf | lighthouse.py:114-126 | one entry per project, in order: its tickets as values |
| Client.Target | lighthouse.py:283-293 | the project given; the first loaded one for None (IndexError if none); or the lookup's match, with AttributeError on `id` when nothing matches |
| Client.CreationRequest | lighthouse.py:294-298 | the POST to the target's ticket list carries the creation document, with body and title written by `%s`; it fails exactly when the target's id cannot be read or formatted, with that error |
| Client.Lighthouse.constructor | lighthouse.py:36-40 | a client starts with no projects loaded, nothing sent, and an empty user |
| Client.Lighthouse.GetData | lighthouse.py:56-85 | a GET is sent only with a URL; the result is the configuration check, then the reply |
| Client.Lighthouse.PostData | lighthouse.py:87-107 | a POST is sent only with a URL and a token; the result follows the 201 rule |
| Client.Lighthouse.GetProjects | lighthouse.py:128-148 | one listing request; the result is the fresh projects built from it, or its error |
| Client.Lighthouse.Projects | lighthouse.py:42-47 | the first successful load is cached and then returned without any request; a failed load leaves nothing cached; the cached projects stay distinct |
| Client.Lighthouse.Load | lighthouse.py:42-47 | the loading step of the `fetch_*` methods: a loaded list is returned as it is, with what its projects hold; otherwise the listing is requested once, and on success each project is fresh, has the listed attributes and no tickets or members |
| Client.Lighthouse.GetProject | lighthouse.py:49-54 | loads the projects if needed, then gives the first match or None, or the error |
| Client.Lighthouse.GetTickets | lighthouse.py:169-223 | the checks, one page request, the tickets stored as the page pairs, and the entry count; nothing else about the project changes |
| Client.Lighthouse.TicketsOnPage | lighthouse.py:169-223 | a `get_tickets` call on an integer page returns what the page function gives, sends that page's requests, writes its (number, ticket) pairs over the project's tickets, and keeps the attributes and members |
| Client.Lighthouse.NextPage | lighthouse.py:164-166 | one turn of the paging loop: afterwards the requests and the ticket map are exactly those of every page so far, this one included |
| Client.Lighthouse.GetAllTickets | lighthouse.py:150-167 | `pages` are the pages `get_tickets` was called with; they and the outcome are Walk over the per-page results; the requests sent are those pages' requests in order; the ticket map is the old one with every page's pairs written over it; attributes and members are kept |
| Client.Lighthouse.GetFullTicket | lighthouse.py:225-235 | both ids are read first; then one request; then the ticket's fields are written and recorded, keeping it valid |
| Client.Lighthouse.GetUser | lighthouse.py:237-251 | one token request; the user is hydrated only when the reply has children |
| Client.Lighthouse.GetMembers | lighthouse.py:253-281 | the check, one request, and the members appended in order up to the first failure |
| Client.Lighthouse.TicketsOf | lighthouse.py:118 | `get_tickets(p)` on page 1: the outcome, the page's requests, its tickets written over the project's, attributes and members kept |
| Client.Lighthouse.TicketsAt | lighthouse.py:117-118 | `get_tickets` on one project of a list of distinct projects changes only that project's tickets |
| Client.Lighthouse.TicketsTurn | lighthouse.py:117-118 | one turn of the `fetch_tickets` loop moves the swept state and the requests on by one project |
| Client.Lighthouse.MembersOf | lighthouse.py:111 | `get_members(p)`: the outcome, the memberships request, the old members kept as a prefix followed by fresh members with the appended values, attributes and tickets kept |
| Client.Lighthouse.MembersAt | lighthouse.py:110-111 | `get_members` on one project of a list of distinct projects changes only that project's members |
| Client.Lighthouse.MembersTurn | lighthouse.py:110-111 | one turn of the `fetch_members` loop moves the swept state and the requests on by one project |
| Client.Lighthouse.AllTicketsOf | lighthouse.py:125 | `get_all_tickets(p, start, end)`: the outcome, the walked pages' requests, every page's tickets written over the project's, attributes and members kept |
| Client.Lighthouse.AllTicketsAt | lighthouse.py:124-125 | `get_all_tickets` on one project of a list of distinct projects changes only that project's tickets |
| Client.Lighthouse.AllTicketsTurn | lighthouse.py:124-125 | one turn of the `fetch_all_tickets` loop moves the swept state and the requests on by one project |
| Client.Lighthouse.FetchTickets | lighthouse.py:114-119 | loads the projects if needed (or fails with the listing error, having sent the listing request only); then page 1 of each project in turn until the first error: visited projects hold their old tickets with their page written over, the rest are untouched, attributes and members are kept, and the requests are the listing when loaded now, then each visited project's; a fresh load starts from the listed attributes with no tickets or members |
| Client.Lighthouse.TicketsEach | lighthouse.py:117-118 | the loop ends as Sweep of the per-project outcomes; the first `visited` projects hold their page's tickets written over the old ones, the others are unchanged; the requests are those of the visited projects in order |
| Client.Lighthouse.FetchMembers | lighthouse.py:109-112 | loads the projects if needed (or fails with the listing error); then each project's members in turn until the first error: visited projects keep their old members followed by the appended ones, the rest are untouched, attributes and tickets kept, and the requests are the listing when loaded now, then each visited project's |
| Client.Lighthouse.MembersEach | lighthouse.py:110-111 | the loop ends as Sweep of the per-project outcomes; the first `visited` projects have their appended members after the old ones, the others are unchanged; the requests are those of the visited projects in order |
| Client.Lighthouse.FetchAllTickets | lighthouse.py:121-126 | loads the projects if needed (or fails with the listing error); then the paging loop for each project in turn until the first error: visited projects hold every walked page's tickets written over the old ones, the rest are untouched, and the requests are the listing when loaded now, then each visited project's pages |
| Client.Lighthouse.AllTicketsEach | lighthouse.py:124-125 | the loop ends as Sweep of the per-project paging outcomes; the first `visited` projects hold their walked pages' tickets written over the old ones, the others are unchanged; the requests are those of the visited projects in order |
| Client.Lighthouse.Resolve | lighthouse.py:284-293 | the target project: the argument, the first loaded project, or the lookup's, loading projects only when needed |
| Client.Lighthouse.Create | lighthouse.py:294-305 | posts the creation document once, and gives a fresh ticket hydrated from the reply without recording names |
| Client.Lighthouse.AddTicket | lighthouse.py:283-305 | the requests sent are the listing when needed, then the POST; the result is the created ticket or the first error |

## Left out

- The network, `urllib2` and `os.path.join` are not modelled. The server is a function from request to reply. An endpoint is a datatype, not a URL string. Request headers are not modelled: the `X-LighthouseToken` header, which `_get_data` sends only for a non-empty token, and the content type.
- The XML parser (`xmltodict`) is not part of this model. A reply body is either an already parsed node tree or a malformed document.
- A field whose declared type is `xml` would have its text passed to the XML parser. The model treats `xml` as a type with no converter.
- `Milestone` and `Message`, which no operation uses, are not modelled. Neither are the `milestones` and `messages` lists or the `__repr__` methods.
- The doctest runner is not modelled.
- `parse_boolean` also accepts the integer `1`. Coercion only ever passes text, so the model's converter takes a string.
- Decimal.ParseInt: only an optional sign followed by digits is read. Python's `int(s, 10)` also accepts surrounding whitespace.
- Client.CheckPage: Python 2 `long` pages are treated as integers. `isinstance(page, int)` refuses a `long`, and the model's integers are unbounded.
- Hydration.TicketKey: ticket numbers `True` and `1` are distinct keys. Python treats them as the same dictionary key.
- Values.PyEq: equality inside lists and dicts is structural, so a nested `True` does not equal a nested `1`.
- Values.PyStr: lists and dicts are never printed. So `get_project` never matches a name against the `repr` of a list or dict id.
- The objects keep their bookkeeping apart from their attributes. In Python a server field named `fields`, `tickets` or `members` would replace the set, dict or list of that name.
- Client.Lighthouse.GetAllTickets: the page bounds `page_start` and `page_end` are integers. Python also accepts other values there: `True` as a start sends `?page=True` and then page 2, and a string bound compares with integers by Python 2's type ordering. Those calls are not modelled; the same holds for Client.Lighthouse.FetchAllTickets.
- Client.Lighthouse.GetAllTickets: `ticket_count` is accumulated but, as in the source, not returned. The ghost `pages` result lists the pages `get_tickets` was called with, including a page whose checks failed before any request.

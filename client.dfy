/**
 The Lighthouse client: its configuration, the lazily loaded project
 list, and the operations that fetch projects, tickets, members and the
 token's user, and create tickets. The server is a total function from
 request to reply fixed when the client is made; `requests` records, in
 order, every request the client actually sent.
 */
module Client {
  import opened Wrappers
  import opened Errors
  import opened Xml
  import opened Values
  import opened Assoc
  import opened Coercion
  import opened Hydration
  import opened Entities
  import opened Transport
  import opened Lookup
  import opened Runs
  import opened Pagination

  /** An argument that is either a Project instance or some other Python value. */
  datatype ProjectArg = Instance(p: Project) | Plain(v: Value)

  /**
   The argument checks of `get_tickets`, in their order: the project
   must be a Project, the page an integer (a boolean is one), and the
   page 1-indexed. The result is the page number.
   */
  function CheckPage(project: ProjectArg, page: Value): (r: Result<int>)
    ensures r.Success? <==> project.Instance? && FormatInt(page).Success? && FormatInt(page).value > 0
    ensures r.Success? ==> r.value == FormatInt(page).value
    ensures project.Plain? ==> r == Failure(NotAProject)
    ensures project.Instance? && FormatInt(page).Failure? ==> r == Failure(PageNotInteger)
    ensures project.Instance? && FormatInt(page).Success? && FormatInt(page).value <= 0 ==> r == Failure(PageNotPositive)
  {
    if project.Plain? then Failure(NotAProject) else CheckPageNumber(page)
  }

  /** The two page checks of `get_tickets`, once the project is known to be a Project. */
  function CheckPageNumber(page: Value): Result<int> {
    if !(page.VInt? || page.VBool?) then Failure(PageNotInteger)
    else
      var n := if page.VInt? then page.i else if page.b then 1 else 0;
      if n <= 0 then Failure(PageNotPositive) else Success(n)
  }

  /** The documented argument errors and accepted pages of `get_tickets`. */
  lemma CheckPageExamples(p: Project)
    ensures CheckPage(Instance(p), VInt(1)) == Success(1)
    ensures CheckPage(Instance(p), VInt(1000)) == Success(1000)
    ensures CheckPage(Instance(p), VInt(0)) == Failure(PageNotPositive)
    ensures CheckPage(Instance(p), VInt(-1)) == Failure(PageNotPositive)
    ensures CheckPage(Instance(p), VStr("1")) == Failure(PageNotInteger)
    ensures CheckPage(Plain(VInt(123)), VInt(1)) == Failure(NotAProject)
    ensures CheckPage(Plain(VStr("project")), VInt(1)) == Failure(NotAProject)
    ensures CheckPage(Instance(p), VBool(true)) == Success(1)
    ensures CheckPage(Instance(p), VBool(false)) == Failure(PageNotPositive)
  {
  }

  /** `project.id` formatted with `%d`. */
  function ProjectId(attrs: map<string, Value>): (r: Result<int>)
    ensures "id" !in attrs ==> r == Failure(AttributeError("id"))
    ensures "id" in attrs ==> r == FormatInt(attrs["id"])
  {
    var id :- GetAttr(attrs, "id");
    FormatInt(id)
  }

  /**
   What `get_tickets` returns for a Project whose attributes are `attrs`:
   the page checks, the project id, the fetch, then the entry count once
   every entry with children has been stored.
   */
  function PageCount(attrs: map<string, Value>, url: Option<string>, server: Request -> Reply, page: Value): Result<int> {
    var _ :- CheckPageNumber(page);
    var id :- ProjectId(attrs);
    var tree :- Fetched(url, server, Get(TicketPage(id, page)));
    var scan := PagePairs(Entries(tree));
    if scan.err.Some? then Failure(scan.err.value) else Success(|Entries(tree)|)
  }

  /** `get_tickets(project, p)` as a function of the page number `p`. */
  function Pager(isProject: bool, attrs: map<string, Value>, url: Option<string>, server: Request -> Reply): int -> Result<int> {
    (p: int) => if isProject then PageCount(attrs, url, server, VInt(p)) else Failure(NotAProject)
  }

  /** A call whose integer result the caller drops, as an outcome. */
  function Completed(r: Result<int>): (o: Outcome)
    ensures o.Pass? <==> r.Success?
    ensures o.Fail? ==> o.error == r.error
  {
    if r.Success? then Pass else Fail(r.error)
  }

  /**
   What `get_members` yields for a Project whose attributes are `attrs`:
   the project id, the fetch, then the member loop over the entries.
   */
  function MemberOutcome(attrs: map<string, Value>, url: Option<string>, server: Request -> Reply): Outcome {
    match ProjectId(attrs)
    case Failure(e) => Fail(e)
    case Success(id) =>
      match Fetched(url, server, Get(ProjectMemberships(id)))
      case Failure(e) => Fail(e)
      case Success(tree) =>
        var run := MemberRun(Entries(tree));
        if run.err.Some? then Fail(run.err.value) else Pass
  }

  /** What `get_tickets(p)` (page 1) yields for a Project whose attributes are `attrs`, its count dropped. */
  function TicketsOutcome(attrs: map<string, Value>, url: Option<string>, server: Request -> Reply): Outcome {
    Completed(PageCount(attrs, url, server, VInt(1)))
  }

  /** What `get_all_tickets(p, start, end)` yields for a Project whose attributes are `attrs`. */
  function AllTicketsOutcome(attrs: map<string, Value>, url: Option<string>, server: Request -> Reply, start: int, end: int): Outcome {
    Walk(start, end, Pager(true, attrs, url, server)).outcome
  }

  /** The per-project call of `fetch_tickets`, by the project's attributes. */
  function TicketsStep(url: Option<string>, server: Request -> Reply): map<string, Value> -> Outcome {
    a => TicketsOutcome(a, url, server)
  }

  /** The per-project call of `fetch_members`, by the project's attributes. */
  function MembersStep(url: Option<string>, server: Request -> Reply): map<string, Value> -> Outcome {
    a => MemberOutcome(a, url, server)
  }

  /** The per-project call of `fetch_all_tickets`, by the project's attributes. */
  function AllTicketsStep(url: Option<string>, server: Request -> Reply, start: int, end: int): map<string, Value> -> Outcome {
    a => AllTicketsOutcome(a, url, server, start, end)
  }

  /** What a call does besides its result: the requests it sends and the entries it stores, each in order. */
  datatype Effect<T> = Effect(sent: seq<Request>, stored: seq<T>)

  /**
   What `get_tickets(project, page)` sends and stores for a Project whose
   attributes are `attrs` (nothing for any other argument): the page
   request once the checks and the id pass and a URL is set, and the
   (number, ticket) pairs the page loop wrote before it stopped.
   */
  function PageEffect(isProject: bool, attrs: map<string, Value>, url: Option<string>, server: Request -> Reply, page: int): Effect<(Value, Bag)> {
    if !isProject || page <= 0 then Effect([], [])
    else
      match ProjectId(attrs)
      case Failure(_) => Effect([], [])
      case Success(id) =>
        var req := Get(TicketPage(id, VInt(page)));
        match Fetched(url, server, req)
        case Failure(_) => Effect(if url.Some? then [req] else [], [])
        case Success(tree) => Effect([req], PagePairs(Entries(tree)).pairs)
  }

  /** What `get_tickets` sends and stores over the given pages, one call after another. */
  function PagesEffect(isProject: bool, attrs: map<string, Value>, url: Option<string>, server: Request -> Reply, pages: seq<int>): Effect<(Value, Bag)>
    decreases |pages|
  {
    if pages == [] then Effect([], [])
    else
      var prev := PagesEffect(isProject, attrs, url, server, pages[..|pages| - 1]);
      var last := PageEffect(isProject, attrs, url, server, pages[|pages| - 1]);
      Effect(prev.sent + last.sent, prev.stored + last.stored)
  }

  /** One page more adds that page's requests and pairs at the end. */
  lemma PagesEffectSnoc(isProject: bool, attrs: map<string, Value>, url: Option<string>, server: Request -> Reply, pages: seq<int>, page: int)
    ensures var prev := PagesEffect(isProject, attrs, url, server, pages);
      var last := PageEffect(isProject, attrs, url, server, page);
      PagesEffect(isProject, attrs, url, server, pages + [page]) == Effect(prev.sent + last.sent, prev.stored + last.stored)
  {
    assert (pages + [page])[..|pages|] == pages;
  }

  /**
   One more `get_tickets` call in the paging loop: the requests so far
   and the tickets so far extend by those of the page.
   */
  lemma PagesEffectAdvance(isProject: bool, attrs: map<string, Value>, url: Option<string>, server: Request -> Reply,
                           pages: seq<int>, page: int, sent0: seq<Request>, sent: seq<Request>, sent': seq<Request>,
                           view0: map<Value, Bag>, view: map<Value, Bag>, view': map<Value, Bag>)
    requires sent == sent0 + PagesEffect(isProject, attrs, url, server, pages).sent
    requires sent' == sent + PageEffect(isProject, attrs, url, server, page).sent
    requires isProject ==> view == Assign(view0, PagesEffect(true, attrs, url, server, pages).stored)
    requires isProject ==> view' == Assign(view, PageEffect(true, attrs, url, server, page).stored)
    ensures sent' == sent0 + PagesEffect(isProject, attrs, url, server, pages + [page]).sent
    ensures isProject ==> view' == Assign(view0, PagesEffect(true, attrs, url, server, pages + [page]).stored)
  {
    PagesEffectSnoc(isProject, attrs, url, server, pages, page);
    PagesEffectSnoc(true, attrs, url, server, pages, page);
    AssignAppend(view0, PagesEffect(true, attrs, url, server, pages).stored, PageEffect(true, attrs, url, server, page).stored);
  }

  /** What `get_all_tickets(p, start, end)` sends and stores for a Project: the effects of the pages it walks, in order. */
  function WalkEffect(attrs: map<string, Value>, url: Option<string>, server: Request -> Reply, start: int, end: int): Effect<(Value, Bag)> {
    PagesEffect(true, attrs, url, server, Walk(start, end, Pager(true, attrs, url, server)).pages)
  }

  /**
   What `get_members` sends and appends for a Project whose attributes
   are `attrs`: the memberships request once the id passes and a URL is
   set, and the members the loop appended before it stopped.
   */
  function MemberEffect(attrs: map<string, Value>, url: Option<string>, server: Request -> Reply): Effect<Bag> {
    match ProjectId(attrs)
    case Failure(_) => Effect([], [])
    case Success(id) =>
      var req := Get(ProjectMemberships(id));
      match Fetched(url, server, req)
      case Failure(_) => Effect(if url.Some? then [req] else [], [])
      case Success(tree) => Effect([req], MemberRun(Entries(tree)).items)
  }

  /** Which per-project call a `fetch_*` loop makes. */
  datatype Call = TicketsCall | MembersCall | AllTicketsCall(start: int, end: int)

  /** The requests one per-project call sends, by the project's attributes. */
  function CallSent(c: Call, attrs: map<string, Value>, url: Option<string>, server: Request -> Reply): seq<Request> {
    match c
    case TicketsCall => PageEffect(true, attrs, url, server, 1).sent
    case MembersCall => MemberEffect(attrs, url, server).sent
    case AllTicketsCall(start, end) => WalkEffect(attrs, url, server, start, end).sent
  }

  /** The (number, ticket) pairs one per-project call stores, by the project's attributes; `get_members` stores none. */
  function CallStored(c: Call, attrs: map<string, Value>, url: Option<string>, server: Request -> Reply): seq<(Value, Bag)> {
    match c
    case TicketsCall => PageEffect(true, attrs, url, server, 1).stored
    case MembersCall => []
    case AllTicketsCall(start, end) => WalkEffect(attrs, url, server, start, end).stored
  }

  /** What the per-project call stores for each of the projects with attributes `xs`. */
  function Stores(c: Call, xs: seq<map<string, Value>>, url: Option<string>, server: Request -> Reply): (r: seq<seq<(Value, Bag)>>)
    ensures |r| == |xs| && forall j :: 0 <= j < |xs| ==> r[j] == CallStored(c, xs[j], url, server)
  {
    seq(|xs|, j requires 0 <= j < |xs| => CallStored(c, xs[j], url, server))
  }

  /** What `get_members` appends for each of the projects with attributes `xs`. */
  function MemberStores(xs: seq<map<string, Value>>, url: Option<string>, server: Request -> Reply): (r: seq<seq<Bag>>)
    ensures |r| == |xs| && forall j :: 0 <= j < |xs| ==> r[j] == MemberEffect(xs[j], url, server).stored
  {
    seq(|xs|, j requires 0 <= j < |xs| => MemberEffect(xs[j], url, server).stored)
  }

  /** The requests of the per-project calls on projects with attributes `xs`, one after another. */
  function SweepSent(c: Call, xs: seq<map<string, Value>>, url: Option<string>, server: Request -> Reply): seq<Request>
    decreases |xs|
  {
    if xs == [] then [] else SweepSent(c, xs[..|xs| - 1], url, server) + CallSent(c, xs[|xs| - 1], url, server)
  }

  /** Over a prefix of `xs`: one project more adds its call's requests. */
  lemma SweepSentPrefix(c: Call, xs: seq<map<string, Value>>, i: nat, url: Option<string>, server: Request -> Reply, sent0: seq<Request>)
    requires i < |xs|
    ensures sent0 + SweepSent(c, xs[..i + 1], url, server) == sent0 + SweepSent(c, xs[..i], url, server) + CallSent(c, xs[i], url, server)
  {
    assert xs[..i + 1][..i] == xs[..i];
  }

  /**
   For a Project with a numeric id and a configured URL, the paging loop
   sends exactly one request per page it asks for, for that page and in
   that order, when the pages are 1-indexed.
   */
  lemma {:induction false} PagesSent(attrs: map<string, Value>, url: Option<string>, server: Request -> Reply, pages: seq<int>)
    requires ProjectId(attrs).Success? && url.Some?
    requires forall i :: 0 <= i < |pages| ==> pages[i] > 0
    ensures var sent := PagesEffect(true, attrs, url, server, pages).sent;
      && |sent| == |pages|
      && forall i :: 0 <= i < |pages| ==> sent[i] == Get(TicketPage(ProjectId(attrs).value, VInt(pages[i])))
    decreases |pages|
  {
    if pages != [] {
      PagesSent(attrs, url, server, pages[..|pages| - 1]);
    }
  }

  /**
   `get_all_tickets` from a page `start >= 1` on a Project with a numeric
   id and a URL requests pages `start, start + 1, ...`: one request per
   page the walk visits.
   */
  lemma WalkRequests(attrs: map<string, Value>, url: Option<string>, server: Request -> Reply, start: int, end: int)
    requires ProjectId(attrs).Success? && url.Some? && start >= 1
    ensures var w := Walk(start, end, Pager(true, attrs, url, server));
      var sent := WalkEffect(attrs, url, server, start, end).sent;
      && |sent| == |w.pages|
      && forall i :: 0 <= i < |sent| ==> sent[i] == Get(TicketPage(ProjectId(attrs).value, VInt(start + i)))
  {
    var fetch := Pager(true, attrs, url, server);
    WalkPages(start, end, fetch);
    ConsecutiveSent(attrs, url, server, start, Walk(start, end, fetch).pages);
  }

  /** Calls on consecutive pages from `start >= 1` send one request each, for that page, in order. */
  lemma ConsecutiveSent(attrs: map<string, Value>, url: Option<string>, server: Request -> Reply, start: int, pages: seq<int>)
    requires ProjectId(attrs).Success? && url.Some? && start >= 1
    requires forall i :: 0 <= i < |pages| ==> pages[i] == start + i
    ensures var sent := PagesEffect(true, attrs, url, server, pages).sent;
      && |sent| == |pages|
      && forall i :: 0 <= i < |sent| ==> sent[i] == Get(TicketPage(ProjectId(attrs).value, VInt(start + i)))
  {
    PagesSent(attrs, url, server, pages);
  }

  /**
   Without a numeric id or a URL, or from a page below 1, `get_tickets`
   sends nothing: a `get_all_tickets` from `start <= 0` asks for the page
   `start` alone, fails on the 1-indexed check, and sends no request.
   */
  lemma WalkFromNonPositive(attrs: map<string, Value>, url: Option<string>, server: Request -> Reply, start: int, end: int)
    requires start <= 0 && start < end
    ensures Walk(start, end, Pager(true, attrs, url, server)) == Walked([start], Fail(PageNotPositive))
    ensures WalkEffect(attrs, url, server, start, end) == Effect([], [])
  {
    var fetch := Pager(true, attrs, url, server);
    assert fetch(start) == Failure(PageNotPositive);
    assert Walk(start, end, fetch) == Walked([start], Fail(PageNotPositive));
    assert PageEffect(true, attrs, url, server, start) == Effect([], []);
    assert [start][..0] == [];
    assert PagesEffect(true, attrs, url, server, []) == Effect([], []);
  }

  /** Without a numeric id or a URL, a walk sends no request at all. */
  lemma {:induction false} WalkSendsNothing(attrs: map<string, Value>, url: Option<string>, server: Request -> Reply, pages: seq<int>)
    requires ProjectId(attrs).Failure? || url.None?
    ensures PagesEffect(true, attrs, url, server, pages).sent == []
    decreases |pages|
  {
    if pages != [] {
      WalkSendsNothing(attrs, url, server, pages[..|pages| - 1]);
    }
  }

  /** The attributes of a project argument; a value that is not a Project has none. */
  function ArgAttrs(project: ProjectArg): map<string, Value>
    reads if project.Instance? then {project.p} else {}
  {
    if project.Instance? then project.p.attrs else map[]
  }

  /** The page request of `get_tickets`, once its arguments are checked. */
  function PageRequest(project: ProjectArg, page: Value): (r: Result<Request>)
    reads if project.Instance? then {project.p} else {}
    ensures CheckPage(project, page).Failure? ==> r == Failure(CheckPage(project, page).error)
    ensures CheckPage(project, page).Success? ==>
      match ProjectId(project.p.attrs)
      case Failure(e) => r == Failure(e)
      case Success(id) => r == Success(Get(TicketPage(id, page)))
  {
    var n :- CheckPage(project, page);
    var id :- ProjectId(project.p.attrs);
    Success(Get(TicketPage(id, page)))
  }

  /**
   The request of `get_full_ticket`: both ids are read before either is
   formatted, so a missing ticket number is reported before a project id
   that is not a number.
   */
  function FullTicketRequest(project: map<string, Value>, ticket: map<string, Value>): (r: Result<Request>)
    ensures r.Success? <==>
      "id" in project && "number" in ticket && FormatInt(project["id"]).Success? && FormatInt(ticket["number"]).Success?
    ensures r.Success? ==> r.value == Get(SingleTicket(FormatInt(project["id"]).value, FormatInt(ticket["number"]).value))
    ensures "id" !in project ==> r == Failure(AttributeError("id"))
    ensures "id" in project && "number" !in ticket ==> r == Failure(AttributeError("number"))
    ensures "id" in project && "number" in ticket && r.Failure? ==> r == Failure(NotANumber)
  {
    var pid :- GetAttr(project, "id");
    var num :- GetAttr(ticket, "number");
    var p :- FormatInt(pid);
    var n :- FormatInt(num);
    Success(Get(SingleTicket(p, n)))
  }

  /** The request of `get_members`, once the argument is checked. */
  function MemberRequest(project: ProjectArg): (r: Result<Request>)
    reads if project.Instance? then {project.p} else {}
    ensures project.Plain? ==> r == Failure(NotAProject)
    ensures project.Instance? ==>
      match ProjectId(project.p.attrs)
      case Failure(e) => r == Failure(e)
      case Success(id) => r == Success(Get(ProjectMemberships(id)))
  {
    if project.Plain? then Failure(NotAProject)
    else
      var id :- ProjectId(project.p.attrs);
      Success(Get(ProjectMemberships(id)))
  }

  /** The request of `get_user`: the token is written with `%s`, so a missing one reads "None". */
  function UserRequest(token: Option<string>): (r: Request)
    ensures token.Some? ==> r == Get(TokenLookup(token.value))
    ensures token.None? ==> r == Get(TokenLookup("None"))
  {
    Get(TokenLookup(Text(token)))
  }

  /** What `_get_data` returns for a request: the configuration check, then the reply. */
  function Fetched(url: Option<string>, server: Request -> Reply, req: Request): (r: Result<Node>)
    ensures url.None? ==> r == Failure(UrlNotSet)
    ensures url.Some? ==> r == GetReply(server(req))
  {
    match GetCheck(url)
    case Fail(e) => Failure(e)
    case Pass => GetReply(server(req))
  }

  /** What `_post_data` returns for a request: the configuration checks, then the reply. */
  function Posted(url: Option<string>, token: Option<string>, server: Request -> Reply, req: Request): (r: Result<Node>)
    ensures PostCheck(url, token).Fail? ==> r == Failure(PostCheck(url, token).error)
    ensures PostCheck(url, token).Pass? ==> r == PostReply(server(req))
  {
    match PostCheck(url, token)
    case Fail(e) => Failure(e)
    case Pass => PostReply(server(req))
  }

  /** The attributes of the projects `get_projects` builds from the listing, or its error. */
  function Listing(url: Option<string>, server: Request -> Reply): Result<seq<map<string, Value>>> {
    var tree :- Fetched(url, server, Get(ProjectList));
    ProjectRun(Entries(tree))
  }

  /** The request loading the projects sends: the listing, unless they are already `loaded` or no URL is set. */
  function LoadSent(loaded: bool, url: Option<string>): (r: seq<Request>)
    ensures r == [] || r == [Get(ProjectList)]
    ensures r != [] <==> !loaded && url.Some?
  {
    if !loaded && url.Some? then [Get(ProjectList)] else []
  }

  /** The attributes of a list of projects, in order. */
  function AttrsOf(ps: seq<Project>): (r: seq<map<string, Value>>)
    reads ps
    ensures |r| == |ps| && forall j :: 0 <= j < |ps| ==> r[j] == ps[j].attrs
    decreases |ps|
  {
    if ps == [] then [] else AttrsOf(ps[..|ps| - 1]) + [ps[|ps| - 1].attrs]
  }

  /** The tickets of each of a list of projects, as values, in order. */
  ghost function ViewsOf(ps: seq<Project>): (r: seq<map<Value, Bag>>)
    reads ps, set p, t | p in ps && t in p.tickets.Values :: t
    ensures |r| == |ps| && forall j :: 0 <= j < |ps| ==> r[j] == ps[j].TicketView()
    decreases |ps|
  {
    if ps == [] then [] else ViewsOf(ps[..|ps| - 1]) + [ps[|ps| - 1].TicketView()]
  }

  /** The member list of each of a list of projects, in order. */
  function MemberLists(ps: seq<Project>): (r: seq<seq<Member>>)
    reads ps
    ensures |r| == |ps| && forall j :: 0 <= j < |ps| ==> r[j] == ps[j].members
    decreases |ps|
  {
    if ps == [] then [] else MemberLists(ps[..|ps| - 1]) + [ps[|ps| - 1].members]
  }

  /** The ticket map of each of a list of projects, in order. */
  function TicketLists(ps: seq<Project>): (r: seq<map<Value, Ticket>>)
    reads ps
    ensures |r| == |ps| && forall j :: 0 <= j < |ps| ==> r[j] == ps[j].tickets
    decreases |ps|
  {
    if ps == [] then [] else TicketLists(ps[..|ps| - 1]) + [ps[|ps| - 1].tickets]
  }

  /**
   Where the loop of `fetch_tickets` or `fetch_all_tickets` stands before
   project `i`: every project keeps its attributes `xs` and members `ms`;
   those before `i` hold their tickets `views` with the pairs `stores`
   written over them, the others still hold `views`.
   */
  ghost predicate TicketsSwept(ps: seq<Project>, xs: seq<map<string, Value>>, ms: seq<seq<Member>>,
                               views: seq<map<Value, Bag>>, stores: seq<seq<(Value, Bag)>>, i: nat)
    reads ps, set p, t | p in ps && t in p.tickets.Values :: t
  {
    && i <= |ps| && |xs| == |ps| && |ms| == |ps| && |views| == |ps| && |stores| == |ps|
    && (forall j :: 0 <= j < |ps| ==> ps[j].attrs == xs[j] && ps[j].members == ms[j])
    && (forall j :: 0 <= j < i ==> ps[j].TicketView() == Assign(views[j], stores[j]))
    && (forall j :: i <= j < |ps| ==> ps[j].TicketView() == views[j])
  }

  /**
   Where the loop of `fetch_members` stands before project `i`: every
   project keeps its attributes `xs` and ticket map `ts`; those before
   `i` hold their members `ms` followed by new members whose values are
   `added`, the others still hold `ms`.
   */
  ghost predicate MembersSwept(ps: seq<Project>, xs: seq<map<string, Value>>, ts: seq<map<Value, Ticket>>,
                               ms: seq<seq<Member>>, added: seq<seq<Bag>>, i: nat)
    reads ps, set j, k | 0 <= j < |ps| && 0 <= k < |ps[j].members| :: ps[j].members[k]
  {
    && i <= |ps| && |xs| == |ps| && |ts| == |ps| && |ms| == |ps| && |added| == |ps|
    && (forall j :: 0 <= j < |ps| ==> ps[j].attrs == xs[j] && ps[j].tickets == ts[j])
    && (forall j :: 0 <= j < i ==> Appended(ps[j].members, |ms[j]|, added[j]) && ps[j].members[..|ms[j]|] == ms[j])
    && (forall j :: i <= j < |ps| ==> ps[j].members == ms[j])
  }

  /** A project list as `get_projects` builds it from a listing: new projects with the listed attributes. */
  ghost predicate Built(r: Result<seq<Project>>, run: Result<seq<map<string, Value>>>)
    reads if r.Success? then r.value else []
  {
    && (r.Success? <==> run.Success?)
    && (r.Failure? ==> r.error == run.error)
    && (r.Success? ==>
          && AttrsOf(r.value) == run.value
          && (forall i :: 0 <= i < |r.value| ==> r.value[i].tickets == map[] && r.value[i].members == [])
          && Distinct(r.value))
  }

  /** No project appears twice. */
  predicate Distinct(ps: seq<Project>) {
    forall i, j :: 0 <= i < j < |ps| ==> ps[i] != ps[j]
  }

  /** The project list `get_projects` returns for the server's listing. */
  ghost predicate Listed(url: Option<string>, server: Request -> Reply, r: Result<seq<Project>>)
    reads if r.Success? then r.value else []
  {
    Built(r, Listing(url, server))
  }

  /** The loop of `get_projects`: a new project per entry, hydrated from its children; the first failure discards them all. */
  method BuildProjects(es: seq<Node>) returns (r: Result<seq<Project>>)
    ensures Built(r, ProjectRun(es))
    ensures r.Success? ==> forall i :: 0 <= i < |r.value| ==> fresh(r.value[i])
  {
    // Only the contracts of ProjectAttrs and NewProject matter here, not how the fields are read.
    hide Fields, Assign, ProjectAttrs;
    var ps: seq<Project> := [];
    ghost var items: seq<map<string, Value>> := [];
    var i := 0;
    while i < |es|
      invariant 0 <= i <= |es|
      invariant RunTo(ProjectAttrs, es, i) == Run(items, None)
      invariant |ps| == |items| && forall j :: 0 <= j < |ps| ==> ps[j].attrs == items[j]
      invariant forall j :: 0 <= j < |ps| ==> fresh(ps[j]) && ps[j].tickets == map[] && ps[j].members == []
      invariant forall j, k :: 0 <= j < k < |ps| ==> ps[j] != ps[k]
    {
      var p, err := NewProject(es[i]);
      if err.Some? {
        RunSticks(ProjectAttrs, es, i + 1, |es|);
        return Failure(err.value);
      }
      ps, items := ps + [p], items + [p.attrs];
      i := i + 1;
    }
    assert AttrsOf(ps) == items;
    r := Success(ps);
  }

  /** One entry of the ticket loop of `get_tickets`: an entry with children is stored as a new ticket under its number. */
  method StoreEntry(p: Project, e: Node) returns (err: Option<Error>)
    modifies p
    ensures p.attrs == old(p.attrs) && p.members == old(p.members)
    ensures forall k :: k in p.tickets ==> (k in old(p.tickets) && p.tickets[k] == old(p.tickets[k])) || fresh(p.tickets[k])
    ensures match EntryPair(e)
      case Failure(x) => err == Some(x) && p.TicketView() == old(p.TicketView())
      case Success(None) => err == None && p.TicketView() == old(p.TicketView())
      case Success(Some(kv)) => err == None && p.TicketView() == old(p.TicketView())[kv.0 := kv.1]
  {
    // The contracts of NewTicket and TicketKey say all that is needed about the entry.
    hide Fields, Assign, TicketKey;
    if !HasChildren(e) {
      return None;
    }
    var t, failed := NewTicket(e, true);
    if failed.Some? {
      return failed;
    }
    assert Bag(t.attrs, t.fields) == TicketBag(e);
    var key := TicketKey(t.attrs);
    if key.Failure? {
      return Some(key.error);
    }
    p.tickets := p.tickets[key.value := t];
    err := None;
  }

  /**
   The ticket loop of `get_tickets` over the entries of a page: each
   entry with children becomes a new ticket stored under its number. The
   result is the number of entries.
   */
  method StoreTickets(p: Project, es: seq<Node>) returns (r: Result<int>)
    modifies p
    ensures p.attrs == old(p.attrs) && p.members == old(p.members)
    ensures forall k :: k in p.tickets ==> (k in old(p.tickets) && p.tickets[k] == old(p.tickets[k])) || fresh(p.tickets[k])
    ensures p.TicketView() == Assign(old(p.TicketView()), PagePairs(es).pairs)
    ensures r == if PagePairs(es).err.Some? then Failure(PagePairs(es).err.value) else Success(|es|)
  {
    ghost var view0 := p.TicketView();
    var i := 0;
    while i < |es|
      invariant 0 <= i <= |es|
      invariant PagePairs(es[..i]).err.None?
      invariant p.TicketView() == Assign(view0, PagePairs(es[..i]).pairs)
      invariant p.attrs == old(p.attrs) && p.members == old(p.members)
      invariant forall k :: k in p.tickets ==> (k in old(p.tickets) && p.tickets[k] == old(p.tickets[k])) || fresh(p.tickets[k])
    {
      var err := StoreEntry(p, es[i]);
      PagePairsStep(es, i);
      if err.Some? {
        PagePairsSticks(es, i + 1);
        return Failure(err.value);
      }
      if EntryPair(es[i]).Success? && EntryPair(es[i]).value.Some? {
        AssignSnoc(view0, PagePairs(es[..i]).pairs, EntryPair(es[i]).value.value);
      }
      i := i + 1;
    }
    assert es[..|es|] == es;
    r := Success(|es|);
  }

  /** One entry of the member loop of `get_members`: a new member, appended once fully hydrated. */
  method AppendMember(p: Project, e: Node) returns (m: Member, err: Option<Error>)
    modifies p
    ensures fresh(m)
    ensures p.attrs == old(p.attrs) && p.tickets == old(p.tickets)
    ensures err.Some? <==> MemberBag(e).Failure?
    ensures err.Some? ==> err.value == MemberBag(e).error && p.members == old(p.members)
    ensures err.None? ==> p.members == old(p.members) + [m] && m.View() == MemberBag(e).value
  {
    m, err := NewMember(e);
    if err.None? {
      p.members := p.members + [m];
    }
  }

  /** The member loop of `get_members`: appends one new member per entry, each once fully hydrated. */
  method AppendMembers(p: Project, es: seq<Node>) returns (r: Outcome)
    modifies p
    ensures p.attrs == old(p.attrs) && p.tickets == old(p.tickets)
    ensures |old(p.members)| <= |p.members| && p.members[..|old(p.members)|] == old(p.members)
    ensures forall i :: |old(p.members)| <= i < |p.members| ==> fresh(p.members[i])
    ensures Appended(p.members, |old(p.members)|, MemberRun(es).items)
    ensures r == if MemberRun(es).err.Some? then Fail(MemberRun(es).err.value) else Pass
  {
    // Only the contracts of MemberBag and AppendMember matter here, not how the fields are read.
    hide MemberFields, Assign, MemberBag;
    ghost var run := MemberRun(es);
    ghost var base := p.members;
    ghost var done: seq<Bag> := [];
    RunAll(MemberBag, es, |es|);
    var i := 0;
    r := Pass;
    while i < |es|
      invariant i <= |run.items| && done == run.items[..i]
      invariant p.attrs == old(p.attrs) && p.tickets == old(p.tickets)
      invariant |base| <= |p.members| && p.members[..|base|] == base
      invariant forall k :: |base| <= k < |p.members| ==> fresh(p.members[k])
      invariant Appended(p.members, |base|, done)
    {
      ghost var before := p.members;
      var m, err := AppendMember(p, es[i]);
      if err.Some? {
        r := Fail(err.value);
        assert done == run.items;
        return;
      }
      AppendedSnoc(before, |base|, done, m);
      done := done + [m.View()];
      i := i + 1;
    }
    assert done == run.items;
  }

  /**
   The project `add_ticket` posts to: the one given, the first project
   when none is given, or the one the lookup finds. A lookup that finds
   nothing fails on reading the id of None, before the "not found" check.
   */
  function Target(project: ProjectArg, ps: seq<Project>): (r: Result<Project>)
    reads ps
    ensures project.Instance? ==> r == Success(project.p)
    ensures project == Plain(VNone) ==> r == if ps == [] then Failure(NoProjects) else Success(ps[0])
    ensures project.Plain? && project.v != VNone && FindProject(AttrsOf(ps), project.v).Failure? ==>
      r == Failure(FindProject(AttrsOf(ps), project.v).error)
    ensures project.Plain? && project.v != VNone && FindProject(AttrsOf(ps), project.v) == Success(None) ==>
      r == Failure(AttributeError("id"))
    ensures project.Plain? && project.v != VNone && FindProject(AttrsOf(ps), project.v).Success? && FindProject(AttrsOf(ps), project.v).value.Some? ==>
      FindProject(AttrsOf(ps), project.v).value.value < |ps| && r == Success(ps[FindProject(AttrsOf(ps), project.v).value.value])
  {
    match project
    case Instance(p) => Success(p)
    case Plain(v) =>
      if v == VNone then
        if ps == [] then Failure(NoProjects) else Success(ps[0])
      else
        var found :- FindProject(AttrsOf(ps), v);
        if found.None? then Failure(AttributeError("id")) else Success(ps[found.value])
  }

  /** The creation request of `add_ticket` for the target project; body and title are written with `%s`. */
  function CreationRequest(target: Project, title: Option<string>, body: Option<string>): (r: Result<Request>)
    reads target
    ensures r.Success? <==> ProjectId(target.attrs).Success?
    ensures r.Success? ==> r.value == Post(TicketList(ProjectId(target.attrs).value), CreationXml(Text(body), Text(title)))
    ensures r.Failure? ==> r.error == ProjectId(target.attrs).error
  {
    var pid :- ProjectId(target.attrs);
    Success(Post(TicketList(pid), CreationXml(Text(body), Text(title))))
  }

  /**
   The outcome of posting a creation request: the request's error, the
   transport's, the hydration's, or a ticket whose attributes are the
   reply's fields over a new ticket's, with no field names recorded.
   */
  ghost predicate Created(url: Option<string>, token: Option<string>, server: Request -> Reply, req: Result<Request>, r: Result<Ticket>)
    reads if r.Success? then {r.value} else {}
  {
    var reply := if req.Failure? then Failure(req.error) else Posted(url, token, server, req.value);
    && (reply.Failure? ==> r == Failure(reply.error))
    && (reply.Success? ==>
          var fs := Fields(reply.value);
          && (fs.err.Some? ==> r == Failure(fs.err.value))
          && (fs.err.None? ==> r.Success? && r.value.attrs == Assign(TicketInit, fs.pairs) && r.value.fields == {}))
  }

  /** The result of `get_project` over a loaded project list and the outcome of the lookup. */
  function Pick(ps: seq<Project>, found: Result<Option<nat>>): Result<Option<Project>>
    requires found.Success? && found.value.Some? ==> found.value.value < |ps|
  {
    match found
    case Failure(e) => Failure(e)
    case Success(None) => Success(None)
    case Success(Some(k)) => Success(Some(ps[k]))
  }

  class Lighthouse {
    var token: Option<string>
    var url: Option<string>
    /** The lazily loaded project list (`_projects`). */
    var cache: Option<seq<Project>>
    /** The user the token belongs to, filled in by GetUser. */
    const user: User
    const server: Request -> Reply
    /** Every request sent, in order. */
    ghost var requests: seq<Request>

    /** The loaded projects are distinct objects, as `get_projects` makes them. */
    ghost predicate Valid()
      reads this`cache
    {
      cache.Some? ==> Distinct(cache.value)
    }

    constructor (token: Option<string>, url: Option<string>, server: Request -> Reply)
      ensures this.token == token && this.url == url && this.server == server
      ensures cache == None && requests == []
      ensures fresh(user) && user.attrs == map[] && user.fields == {}
      ensures Valid()
    {
      this.token := token;
      this.url := url;
      this.server := server;
      cache := None;
      requests := [];
      user := new User();
    }

    /** `_get_data`: refuses without a URL; otherwise sends the GET and parses the reply. */
    method GetData(ep: Endpoint) returns (r: Result<Node>)
      modifies this`requests
      ensures r == Fetched(url, server, Get(ep))
      ensures requests == old(requests) + if url.Some? then [Get(ep)] else []
    {
      if url.None? {
        return Failure(UrlNotSet);
      }
      requests := requests + [Get(ep)];
      r := GetReply(server(Get(ep)));
    }

    /** `_post_data`: refuses without a URL, then without a token; otherwise sends the POST. */
    method PostData(ep: Endpoint, body: string) returns (r: Result<Node>)
      modifies this`requests
      ensures r == Posted(url, token, server, Post(ep, body))
      ensures requests == old(requests) + if PostCheck(url, token).Pass? then [Post(ep, body)] else []
    {
      if url.None? {
        return Failure(UrlNotSet);
      }
      if token.None? {
        return Failure(TokenNotSet);
      }
      requests := requests + [Post(ep, body)];
      r := PostReply(server(Post(ep, body)));
    }

    /** `get_projects`: one new project per entry of the listing, or the first error. */
    method GetProjects() returns (r: Result<seq<Project>>)
      modifies this`requests
      ensures requests == old(requests) + LoadSent(false, url)
      ensures Listed(url, server, r)
      ensures r.Success? ==> forall i :: 0 <= i < |r.value| ==> fresh(r.value[i])
    {
      var tree :- GetData(ProjectList);
      r := BuildProjects(Entries(tree));
    }

    /** The `projects` property: loads the list on first use and keeps it once loaded. */
    method Projects() returns (r: Result<seq<Project>>)
      requires Valid()
      modifies this`cache, this`requests
      ensures Valid()
      ensures requests == old(requests) + LoadSent(old(cache).Some?, url)
      ensures old(cache).Some? ==> r == Success(old(cache).value) && cache == old(cache)
      ensures old(cache).None? ==>
        && Listed(url, server, r)
        && (r.Success? ==> forall i :: 0 <= i < |r.value| ==> fresh(r.value[i]))
        && cache == if r.Success? then Some(r.value) else None
    {
      if cache.Some? {
        return Success(cache.value);
      }
      r := GetProjects();
      if r.Success? {
        cache := Some(r.value);
      }
    }

    /** `get_project`: the first loaded project whose name, id or printed id equals `name`. */
    method GetProject(name: Value) returns (r: Result<Option<Project>>)
      requires Valid()
      modifies this`cache, this`requests
      ensures Valid()
      ensures requests == old(requests) + LoadSent(old(cache).Some?, url)
      ensures old(cache).Some? ==> cache == old(cache)
      ensures old(cache).None? ==>
        && (cache.Some? <==> Listing(url, server).Success?)
        && (cache.Some? ==> Listed(url, server, Success(cache.value)) && forall i :: 0 <= i < |cache.value| ==> fresh(cache.value[i]))
      ensures cache.None? ==> r == Failure(Listing(url, server).error)
      ensures cache.Some? ==> r == Pick(cache.value, FindProject(AttrsOf(cache.value), name))
    {
      var ps :- Projects();
      var found :- FindProject(AttrsOf(ps), name);
      if found.None? {
        return Success(None);
      }
      r := Success(Some(ps[found.value]));
    }

    /**
     `get_tickets`: checks its arguments, fetches one page of the
     project's tickets and stores each entry with children as a new
     ticket under its number, a later one replacing an earlier one. The
     result is the number of entries on the page.
     */
    method GetTickets(project: ProjectArg, page: Value) returns (r: Result<int>)
      modifies this`requests, if project.Instance? then {project.p} else {}
      ensures project.Instance? ==> project.p.attrs == old(project.p.attrs) && project.p.members == old(project.p.members)
      ensures project.Instance? ==> forall k :: k in project.p.tickets ==>
        (k in old(project.p.tickets) && project.p.tickets[k] == old(project.p.tickets[k])) || fresh(project.p.tickets[k])
      ensures var req := old(PageRequest(project, page));
        && (req.Failure? ==> r == Failure(req.error) && requests == old(requests))
        && (req.Success? ==> requests == old(requests) + if url.Some? then [req.value] else [])
        && (req.Failure? && project.Instance? ==> project.p.tickets == old(project.p.tickets))
        && (req.Success? && Fetched(url, server, req.value).Failure? ==>
              r == Failure(Fetched(url, server, req.value).error) && project.p.tickets == old(project.p.tickets))
        && (req.Success? && Fetched(url, server, req.value).Success? ==>
              var es := Entries(Fetched(url, server, req.value).value);
              var scan := PagePairs(es);
              && project.p.TicketView() == Assign(old(project.p.TicketView()), scan.pairs)
              && r == if scan.err.Some? then Failure(scan.err.value) else Success(|es|))
      ensures project.Instance? ==> r == PageCount(old(project.p.attrs), url, server, page)
    {
      var n :- CheckPage(project, page);
      var id :- ProjectId(project.p.attrs);
      var tree :- GetData(TicketPage(id, page));
      r := StoreTickets(project.p, Entries(tree));
    }

    /** A `get_tickets(project, page)` call with an integer page, by its result and its effect. */
    method TicketsOnPage(project: ProjectArg, page: int, ghost attrs: map<string, Value>) returns (r: Result<int>)
      requires project.Instance? ==> project.p.attrs == attrs
      modifies this`requests, if project.Instance? then {project.p} else {}
      ensures project.Instance? ==> project.p.attrs == attrs && project.p.members == old(project.p.members)
      ensures project.Instance? ==>
        project.p.TicketView() == Assign(old(project.p.TicketView()), PageEffect(true, attrs, url, server, page).stored)
      ensures requests == old(requests) + PageEffect(project.Instance?, attrs, url, server, page).sent
      ensures r == Pager(project.Instance?, attrs, url, server)(page)
    {
      r := GetTickets(project, VInt(page));
    }

    /**
     One turn of the paging loop of `get_all_tickets`: `get_tickets` on
     the next page, after which the requests and the tickets are those of
     the pages so far and this one.
     */
    method NextPage(project: ProjectArg, page: int, ghost attrs: map<string, Value>, ghost pages: seq<int>,
                    ghost sent0: seq<Request>, ghost view0: map<Value, Bag>) returns (r: Result<int>)
      requires project.Instance? ==> project.p.attrs == attrs
      requires requests == sent0 + PagesEffect(project.Instance?, attrs, url, server, pages).sent
      requires project.Instance? ==> project.p.TicketView() == Assign(view0, PagesEffect(true, attrs, url, server, pages).stored)
      modifies this`requests, if project.Instance? then {project.p} else {}
      ensures project.Instance? ==> project.p.attrs == attrs && project.p.members == old(project.p.members)
      ensures requests == sent0 + PagesEffect(project.Instance?, attrs, url, server, pages + [page]).sent
      ensures project.Instance? ==> project.p.TicketView() == Assign(view0, PagesEffect(true, attrs, url, server, pages + [page]).stored)
      ensures r == Pager(project.Instance?, attrs, url, server)(page)
    {
      ghost var sent, view := requests, if project.Instance? then project.p.TicketView() else map[];
      r := TicketsOnPage(project, page, attrs);
      PagesEffectAdvance(project.Instance?, attrs, url, server, pages, page, sent0, sent, requests,
                         view0, view, if project.Instance? then project.p.TicketView() else map[]);
    }

    /**
     `get_all_tickets`: fetches pages from `pageStart` while the previous
     page was full (30 entries) and the page is before `pageEnd`. `pages`
     are the pages `get_tickets` was called with, in order; which pages
     those are and how the loop ends are given by Walk over what
     `get_tickets` returns. The requests sent and the tickets stored are
     those of each of these calls in turn.
     */
    method GetAllTickets(project: ProjectArg, pageStart: int, pageEnd: int)
      returns (r: Outcome, ghost pages: seq<int>)
      modifies this`requests, if project.Instance? then {project.p} else {}
      ensures project.Instance? ==> project.p.attrs == old(project.p.attrs) && project.p.members == old(project.p.members)
      ensures Walk(pageStart, pageEnd, Pager(project.Instance?, old(ArgAttrs(project)), url, server)) == Walked(pages, r)
      ensures requests == old(requests) + PagesEffect(project.Instance?, old(ArgAttrs(project)), url, server, pages).sent
      ensures project.Instance? ==>
        project.p.TicketView() == Assign(old(project.p.TicketView()), PagesEffect(true, old(ArgAttrs(project)), url, server, pages).stored)
    {
      // What a page yields matters here only through the calls' contracts, not through PageCount's body.
      hide PageCount;
      ghost var attrs := ArgAttrs(project);
      ghost var fetch := Pager(project.Instance?, attrs, url, server);
      ghost var view0 := if project.Instance? then project.p.TicketView() else map[];
      WalkBegin(pageStart, pageEnd, fetch);
      var c := 30;
      var page := pageStart;
      var ticketCount := 0;
      pages := [];
      while c == 30 && page < pageEnd
        invariant project.Instance? ==> project.p.attrs == attrs && project.p.members == old(project.p.members)
        invariant Midway(pageStart, pageEnd, fetch, pages, page, c)
        invariant requests == old(requests) + PagesEffect(project.Instance?, attrs, url, server, pages).sent
        invariant project.Instance? ==> project.p.TicketView() == Assign(view0, PagesEffect(true, attrs, url, server, pages).stored)
        decreases pageEnd - page
      {
        var res := NextPage(project, page, attrs, pages, old(requests), view0);
        WalkTurn(pageStart, page, pageEnd, fetch, pages, res);
        pages := pages + [page];
        if res.Failure? {
          return Fail(res.error), pages;
        }
        c := res.value;
        ticketCount := ticketCount + c;
        page := page + 1;
      }
      WalkEnd(pageStart, pageEnd, fetch, pages, page, c);
      r := Pass;
    }

    /** `get_full_ticket`: fetches one ticket and copies its fields onto `ticket`, recording the names. */
    method GetFullTicket(project: Project, ticket: Ticket) returns (r: Result<Ticket>)
      modifies this`requests, ticket
      ensures old(ticket.Valid()) ==> ticket.Valid()
      ensures var req := old(FullTicketRequest(project.attrs, ticket.attrs));
        && (req.Failure? ==> r == Failure(req.error) && requests == old(requests) && unchanged(ticket))
        && (req.Success? ==> requests == old(requests) + if url.Some? then [req.value] else [])
        && (req.Success? && Fetched(url, server, req.value).Failure? ==>
              r == Failure(Fetched(url, server, req.value).error) && unchanged(ticket))
        && (req.Success? && Fetched(url, server, req.value).Success? ==>
              var fs := Fields(Fetched(url, server, req.value).value);
              && ticket.attrs == Assign(old(ticket.attrs), fs.pairs)
              && ticket.fields == old(ticket.fields) + Keys(fs.pairs)
              && r == if fs.err.Some? then Failure(fs.err.value) else Success(ticket))
    {
      var req :- FullTicketRequest(project.attrs, ticket.attrs);
      var tree :- GetData(req.endpoint);
      var err := ticket.Hydrate(tree, true);
      if err.Some? {
        return Failure(err.value);
      }
      r := Success(ticket);
    }

    /** `get_user`: fetches the token's record and, when it has fields, copies them onto `user`. */
    method GetUser() returns (r: Outcome)
      modifies this`requests, user
      ensures requests == old(requests) + if url.Some? then [UserRequest(token)] else []
      ensures var got := Fetched(url, server, UserRequest(token));
        && (got.Failure? ==> r == Fail(got.error) && unchanged(user))
        && (got.Success? && !HasChildren(got.value) ==> r == Pass && unchanged(user))
        && (got.Success? && HasChildren(got.value) ==>
              var fs := Fields(got.value);
              && user.attrs == Assign(old(user.attrs), fs.pairs)
              && user.fields == old(user.fields) + Keys(fs.pairs)
              && r == if fs.err.Some? then Fail(fs.err.value) else Pass)
    {
      var req := UserRequest(token);
      var got := GetData(req.endpoint);
      if got.Failure? {
        return Fail(got.error);
      }
      r := Pass;
      if HasChildren(got.value) {
        var err := user.Hydrate(got.value);
        if err.Some? {
          r := Fail(err.value);
        }
      }
    }

    /**
     `get_members`: fetches the project's memberships and appends one new
     member per entry, each once it is fully hydrated; a failure keeps the
     members appended before it.
     */
    method GetMembers(project: ProjectArg) returns (r: Outcome)
      modifies this`requests, if project.Instance? then {project.p} else {}
      ensures project.Instance? ==> project.p.attrs == old(project.p.attrs) && project.p.tickets == old(project.p.tickets)
      ensures var req := old(MemberRequest(project));
        && (req.Failure? ==> r == Fail(req.error) && requests == old(requests))
        && (req.Success? ==> requests == old(requests) + if url.Some? then [req.value] else [])
        && (req.Failure? && project.Instance? ==> project.p.members == old(project.p.members))
        && (req.Success? && Fetched(url, server, req.value).Failure? ==>
              r == Fail(Fetched(url, server, req.value).error) && project.p.members == old(project.p.members))
        && (req.Success? && Fetched(url, server, req.value).Success? ==>
              var run := MemberRun(Entries(Fetched(url, server, req.value).value));
              && |project.p.members| == |old(project.p.members)| + |run.items|
              && project.p.members[..|old(project.p.members)|] == old(project.p.members)
              && (forall i :: |old(project.p.members)| <= i < |project.p.members| ==>
                    fresh(project.p.members[i]) && project.p.members[i].View() == run.items[i - |old(project.p.members)|])
              && r == if run.err.Some? then Fail(run.err.value) else Pass)
    {
      if project.Plain? {
        return Fail(NotAProject);
      }
      var id := ProjectId(project.p.attrs);
      if id.Failure? {
        return Fail(id.error);
      }
      var got := GetData(ProjectMemberships(id.value));
      if got.Failure? {
        return Fail(got.error);
      }
      var es := if HasChildren(got.value) then got.value.children.nodes else [];
      assert es == Entries(got.value);
      r := AppendMembers(project.p, es);
    }

    /** A `get_tickets(p)` call on a Project (page 1), its count dropped. */
    method TicketsOf(p: Project) returns (r: Outcome)
      modifies this`requests, p
      ensures p.attrs == old(p.attrs) && p.members == old(p.members)
      ensures p.TicketView() == Assign(old(p.TicketView()), PageEffect(true, p.attrs, url, server, 1).stored)
      ensures requests == old(requests) + PageEffect(true, p.attrs, url, server, 1).sent
      ensures r == TicketsOutcome(p.attrs, url, server)
    {
      var res := TicketsOnPage(Instance(p), 1, p.attrs);
      r := Completed(res);
    }

    /** A `get_members(p)` call on a Project. */
    method MembersOf(p: Project) returns (r: Outcome)
      modifies this`requests, p
      ensures p.attrs == old(p.attrs) && p.tickets == old(p.tickets)
      ensures Appended(p.members, |old(p.members)|, MemberEffect(p.attrs, url, server).stored)
      ensures p.members[..|old(p.members)|] == old(p.members)
      ensures forall i :: |old(p.members)| <= i < |p.members| ==> fresh(p.members[i])
      ensures requests == old(requests) + MemberEffect(p.attrs, url, server).sent
      ensures r == MemberOutcome(p.attrs, url, server)
    {
      r := GetMembers(Instance(p));
    }

    /** A `get_all_tickets(p, pageStart, pageEnd)` call on a Project. */
    method AllTicketsOf(p: Project, pageStart: int, pageEnd: int) returns (r: Outcome)
      modifies this`requests, p
      ensures p.attrs == old(p.attrs) && p.members == old(p.members)
      ensures p.TicketView() == Assign(old(p.TicketView()), WalkEffect(p.attrs, url, server, pageStart, pageEnd).stored)
      ensures requests == old(requests) + WalkEffect(p.attrs, url, server, pageStart, pageEnd).sent
      ensures r == AllTicketsOutcome(p.attrs, url, server, pageStart, pageEnd)
    {
      ghost var pages;
      r, pages := GetAllTickets(Instance(p), pageStart, pageEnd);
    }

    /** The projects loaded in the cache, as a set. */
    function Cached(): set<Project>
      reads this
    {
      if cache.Some? then set p | p in cache.value else {}
    }

    /**
     The loading step of the `fetch_*` methods: the `projects` property,
     and what the loaded projects hold when the loop starts: attributes
     `xs`, ticket maps `ts`, members `ms` and tickets as values `views`.
     Projects already loaded hold what they held; after a fresh load each
     is new and holds its listed attributes, no tickets and no members.
     */
    method Load() returns (r: Result<seq<Project>>, ghost xs: seq<map<string, Value>>, ghost ts: seq<map<Value, Ticket>>,
                           ghost ms: seq<seq<Member>>, ghost views: seq<map<Value, Bag>>)
      requires Valid()
      modifies this`cache, this`requests
      ensures Valid()
      ensures requests == old(requests) + LoadSent(old(cache).Some?, url)
      ensures old(cache).Some? ==> r == Success(old(cache).value) && cache == old(cache)
      ensures old(cache).None? ==>
        && (r.Success? <==> Listing(url, server).Success?)
        && (r.Failure? ==> r.error == Listing(url, server).error)
      ensures cache == if r.Success? then Some(r.value) else None
      ensures r.Success? ==>
        xs == AttrsOf(r.value) && ts == TicketLists(r.value) && ms == MemberLists(r.value) && views == ViewsOf(r.value)
      ensures r.Success? && old(cache).Some? ==>
        && xs == old(AttrsOf(cache.value)) && ts == old(TicketLists(cache.value))
        && ms == old(MemberLists(cache.value)) && views == old(ViewsOf(cache.value))
      ensures r.Success? && old(cache).None? ==>
        && xs == Listing(url, server).value
        && forall j :: 0 <= j < |r.value| ==> fresh(r.value[j]) && ts[j] == map[] && ms[j] == [] && views[j] == map[]
    {
      // Only the contracts of the listing functions matter here, not their bodies.
      hide Listing, LoadSent, AttrsOf, TicketLists, MemberLists, ViewsOf;
      if cache.Some? {
        xs, ts, ms, views := AttrsOf(cache.value), TicketLists(cache.value), MemberLists(cache.value), ViewsOf(cache.value);
        r := Projects();
        return;
      }
      r := Projects();
      if r.Failure? {
        return r, [], [], [], [];
      }
      xs, ts, ms, views := AttrsOf(r.value), TicketLists(r.value), MemberLists(r.value), ViewsOf(r.value);
      forall j | 0 <= j < |r.value|
        ensures views[j] == map[]
      {
        assert r.value[j].tickets == map[];
      }
    }

    /**
     `fetch_tickets`: loads the projects when they are not yet loaded,
     then fetches the first page of tickets of each project in turn; the
     first error ends it. `xs`, `ms` and `views` are what the projects
     held when the loop started.
     */
    method FetchTickets() returns (r: Outcome, ghost visited: nat, ghost xs: seq<map<string, Value>>,
        ghost ms: seq<seq<Member>>, ghost views: seq<map<Value, Bag>>)
      requires Valid()
      modifies this`cache, this`requests, Cached()
      ensures Valid()
      ensures old(cache).Some? ==> cache == old(cache)
      ensures old(cache).None? ==> (cache.Some? <==> Listing(url, server).Success?)
      ensures cache.None? ==>
        r == Fail(Listing(url, server).error) && requests == old(requests) + LoadSent(false, url)
      ensures cache.Some? ==> Sweep(xs, TicketsStep(url, server), 0) == Swept(visited, r)
      ensures cache.Some? ==> TicketsSwept(cache.value, xs, ms, views, Stores(TicketsCall, xs, url, server), visited)
      ensures cache.Some? ==>
        requests == old(requests) + LoadSent(old(cache).Some?, url) + SweepSent(TicketsCall, xs[..visited], url, server)
      ensures cache.Some? && old(cache).Some? ==>
        xs == old(AttrsOf(cache.value)) && ms == old(MemberLists(cache.value)) && views == old(ViewsOf(cache.value))
      ensures cache.Some? && old(cache).None? ==>
        && xs == Listing(url, server).value
        && (forall j :: 0 <= j < |cache.value| ==> fresh(cache.value[j]) && ms[j] == [] && views[j] == map[])
    {
      // The contracts of Load and TicketsEach are joined as they stand, without unfolding them.
      hide Listing, LoadSent, Sweep, Stores, TicketsSwept, TicketsStep, SweepSent;
      var loaded;
      ghost var ts;
      loaded, xs, ts, ms, views := Load();
      if loaded.Failure? {
        return Fail(loaded.error), 0, xs, ms, views;
      }
      r, visited := TicketsEach(loaded.value);
    }

    /** `get_tickets` on `ps[i]`, which leaves the other projects as they were. */
    method TicketsAt(ps: seq<Project>, i: nat, ghost attrs: map<string, Value>) returns (r: Outcome)
      requires Distinct(ps) && i < |ps| && ps[i].attrs == attrs
      modifies this`requests, ps[i]
      ensures forall j :: 0 <= j < |ps| && j != i ==>
        ps[j].attrs == old(ps[j].attrs) && ps[j].members == old(ps[j].members) && ps[j].TicketView() == old(ps[j].TicketView())
      ensures ps[i].attrs == attrs && ps[i].members == old(ps[i].members)
      ensures ps[i].TicketView() == Assign(old(ps[i].TicketView()), CallStored(TicketsCall, attrs, url, server))
      ensures requests == old(requests) + CallSent(TicketsCall, attrs, url, server)
      ensures r == TicketsOutcome(attrs, url, server)
    {
      r := TicketsOf(ps[i]);
    }

    /** One turn of the loop of `fetch_tickets`: `get_tickets` on `ps[i]`. */
    method TicketsTurn(ps: seq<Project>, i: nat, ghost xs: seq<map<string, Value>>, ghost ms: seq<seq<Member>>,
                       ghost views: seq<map<Value, Bag>>, ghost stores: seq<seq<(Value, Bag)>>, ghost sent0: seq<Request>)
      returns (r: Outcome)
      requires Distinct(ps) && i < |ps|
      requires TicketsSwept(ps, xs, ms, views, stores, i) && stores[i] == CallStored(TicketsCall, xs[i], url, server)
      requires requests == sent0 + SweepSent(TicketsCall, xs[..i], url, server)
      modifies this`requests, ps[i]
      ensures TicketsSwept(ps, xs, ms, views, stores, i + 1)
      ensures requests == sent0 + SweepSent(TicketsCall, xs[..i + 1], url, server)
      ensures r == TicketsOutcome(xs[i], url, server)
    {
      r := TicketsAt(ps, i, xs[i]);
      SweepSentPrefix(TicketsCall, xs, i, url, server, sent0);
    }

    /**
     The loop of `fetch_tickets` over the projects `ps`: `get_tickets` on
     each in turn until one fails. The first `visited` projects were
     called, each sending its request and storing its page's tickets;
     the others are untouched.
     */
    method TicketsEach(ps: seq<Project>) returns (r: Outcome, ghost visited: nat)
      requires Distinct(ps)
      modifies this`requests, ps
      ensures Sweep(old(AttrsOf(ps)), TicketsStep(url, server), 0) == Swept(visited, r)
      ensures TicketsSwept(ps, old(AttrsOf(ps)), old(MemberLists(ps)), old(ViewsOf(ps)), Stores(TicketsCall, old(AttrsOf(ps)), url, server), visited)
      ensures requests == old(requests) + SweepSent(TicketsCall, old(AttrsOf(ps))[..visited], url, server)
    {
      // The loop reasons through the contracts of the list functions and of the per-project step.
      hide AttrsOf, TicketLists, MemberLists, ViewsOf, Stores, MemberStores;
      ghost var xs, ms, views := AttrsOf(ps), MemberLists(ps), ViewsOf(ps);
      ghost var u := url;
      ghost var stores := Stores(TicketsCall, xs, u, server);
      var i := 0;
      while i < |ps|
        invariant i <= |ps| && url == u
        invariant TicketsSwept(ps, xs, ms, views, stores, i)
        invariant Sweep(xs, TicketsStep(u, server), 0) == Sweep(xs, TicketsStep(u, server), i)
        invariant requests == old(requests) + SweepSent(TicketsCall, xs[..i], u, server)
      {
        var res := TicketsTurn(ps, i, xs, ms, views, stores, old(requests));
        if res.Fail? {
          r, visited := res, i + 1;
          return;
        }
        i := i + 1;
      }
      r, visited := Pass, |ps|;
    }

    /**
     `fetch_members`: loads the projects when they are not yet loaded,
     then fetches the members of each project in turn; the first error
     ends it. `xs`, `ts` and `ms` are what the projects held when the
     loop started.
     */
    method FetchMembers() returns (r: Outcome, ghost visited: nat, ghost xs: seq<map<string, Value>>,
        ghost ts: seq<map<Value, Ticket>>, ghost ms: seq<seq<Member>>)
      requires Valid()
      modifies this`cache, this`requests, Cached()
      ensures Valid()
      ensures old(cache).Some? ==> cache == old(cache)
      ensures old(cache).None? ==> (cache.Some? <==> Listing(url, server).Success?)
      ensures cache.None? ==>
        r == Fail(Listing(url, server).error) && requests == old(requests) + LoadSent(false, url)
      ensures cache.Some? ==> Sweep(xs, MembersStep(url, server), 0) == Swept(visited, r)
      ensures cache.Some? ==> MembersSwept(cache.value, xs, ts, ms, MemberStores(xs, url, server), visited)
      ensures cache.Some? ==>
        requests == old(requests) + LoadSent(old(cache).Some?, url) + SweepSent(MembersCall, xs[..visited], url, server)
      ensures cache.Some? && old(cache).Some? ==>
        xs == old(AttrsOf(cache.value)) && ts == old(TicketLists(cache.value)) && ms == old(MemberLists(cache.value))
      ensures cache.Some? && old(cache).None? ==>
        && xs == Listing(url, server).value
        && (forall j :: 0 <= j < |cache.value| ==> fresh(cache.value[j]) && ts[j] == map[] && ms[j] == [])
    {
      // The contracts of Load and MembersEach are joined as they stand, without unfolding them.
      hide Listing, LoadSent, Sweep, MemberStores, MembersSwept, MembersStep, SweepSent;
      var loaded;
      ghost var views;
      loaded, xs, ts, ms, views := Load();
      if loaded.Failure? {
        return Fail(loaded.error), 0, xs, ts, ms;
      }
      r, visited := MembersEach(loaded.value);
    }

    /** `get_members` on `ps[i]`, which leaves the other projects as they were. */
    method MembersAt(ps: seq<Project>, i: nat, ghost attrs: map<string, Value>) returns (r: Outcome)
      requires Distinct(ps) && i < |ps| && ps[i].attrs == attrs
      modifies this`requests, ps[i]
      ensures forall j :: 0 <= j < |ps| && j != i ==>
        ps[j].attrs == old(ps[j].attrs) && ps[j].tickets == old(ps[j].tickets) && ps[j].members == old(ps[j].members)
      ensures ps[i].attrs == attrs && ps[i].tickets == old(ps[i].tickets)
      ensures Appended(ps[i].members, |old(ps[i].members)|, MemberEffect(attrs, url, server).stored)
      ensures ps[i].members[..|old(ps[i].members)|] == old(ps[i].members)
      ensures requests == old(requests) + CallSent(MembersCall, attrs, url, server)
      ensures r == MemberOutcome(attrs, url, server)
    {
      r := MembersOf(ps[i]);
    }

    /** One turn of the loop of `fetch_members`: `get_members` on `ps[i]`. */
    method MembersTurn(ps: seq<Project>, i: nat, ghost xs: seq<map<string, Value>>, ghost ts: seq<map<Value, Ticket>>,
                       ghost ms: seq<seq<Member>>, ghost added: seq<seq<Bag>>, ghost sent0: seq<Request>) returns (r: Outcome)
      requires Distinct(ps) && i < |ps|
      requires MembersSwept(ps, xs, ts, ms, added, i) && added[i] == MemberEffect(xs[i], url, server).stored
      requires requests == sent0 + SweepSent(MembersCall, xs[..i], url, server)
      modifies this`requests, ps[i]
      ensures MembersSwept(ps, xs, ts, ms, added, i + 1)
      ensures requests == sent0 + SweepSent(MembersCall, xs[..i + 1], url, server)
      ensures r == MemberOutcome(xs[i], url, server)
    {
      r := MembersAt(ps, i, xs[i]);
      SweepSentPrefix(MembersCall, xs, i, url, server, sent0);
    }

    /**
     The loop of `fetch_members` over the projects `ps`: `get_members` on
     each in turn until one fails. The first `visited` projects were
     called, each sending its request and appending its members; the
     others are untouched.
     */
    method MembersEach(ps: seq<Project>) returns (r: Outcome, ghost visited: nat)
      requires Distinct(ps)
      modifies this`requests, ps
      ensures Sweep(old(AttrsOf(ps)), MembersStep(url, server), 0) == Swept(visited, r)
      ensures MembersSwept(ps, old(AttrsOf(ps)), old(TicketLists(ps)), old(MemberLists(ps)), MemberStores(old(AttrsOf(ps)), url, server), visited)
      ensures requests == old(requests) + SweepSent(MembersCall, old(AttrsOf(ps))[..visited], url, server)
    {
      // The loop reasons through the contracts of the list functions and of the per-project step.
      hide AttrsOf, TicketLists, MemberLists, ViewsOf, Stores, MemberStores;
      ghost var xs, ts, ms := AttrsOf(ps), TicketLists(ps), MemberLists(ps);
      ghost var u := url;
      ghost var added := MemberStores(xs, u, server);
      var i := 0;
      while i < |ps|
        invariant i <= |ps| && url == u
        invariant MembersSwept(ps, xs, ts, ms, added, i)
        invariant Sweep(xs, MembersStep(u, server), 0) == Sweep(xs, MembersStep(u, server), i)
        invariant requests == old(requests) + SweepSent(MembersCall, xs[..i], u, server)
      {
        var res := MembersTurn(ps, i, xs, ts, ms, added, old(requests));
        if res.Fail? {
          r, visited := res, i + 1;
          return;
        }
        i := i + 1;
      }
      r, visited := Pass, |ps|;
    }

    /**
     `fetch_all_tickets`: loads the projects when they are not yet loaded,
     then runs the paging loop of `get_all_tickets` on each project in
     turn; the first error ends it. `xs`, `ms` and `views` are what the
     projects held when the loop started.
     */
    method FetchAllTickets(pageStart: int, pageEnd: int) returns (r: Outcome, ghost visited: nat, ghost xs: seq<map<string, Value>>,
        ghost ms: seq<seq<Member>>, ghost views: seq<map<Value, Bag>>)
      requires Valid()
      modifies this`cache, this`requests, Cached()
      ensures Valid()
      ensures old(cache).Some? ==> cache == old(cache)
      ensures old(cache).None? ==> (cache.Some? <==> Listing(url, server).Success?)
      ensures cache.None? ==>
        r == Fail(Listing(url, server).error) && requests == old(requests) + LoadSent(false, url)
      ensures cache.Some? ==> Sweep(xs, AllTicketsStep(url, server, pageStart, pageEnd), 0) == Swept(visited, r)
      ensures cache.Some? ==> TicketsSwept(cache.value, xs, ms, views, Stores(AllTicketsCall(pageStart, pageEnd), xs, url, server), visited)
      ensures cache.Some? ==>
        requests == old(requests) + LoadSent(old(cache).Some?, url) + SweepSent(AllTicketsCall(pageStart, pageEnd), xs[..visited], url, server)
      ensures cache.Some? && old(cache).Some? ==>
        xs == old(AttrsOf(cache.value)) && ms == old(MemberLists(cache.value)) && views == old(ViewsOf(cache.value))
      ensures cache.Some? && old(cache).None? ==>
        && xs == Listing(url, server).value
        && (forall j :: 0 <= j < |cache.value| ==> fresh(cache.value[j]) && ms[j] == [] && views[j] == map[])
    {
      // The contracts of Load and AllTicketsEach are joined as they stand, without unfolding them.
      hide Listing, LoadSent, Sweep, Stores, TicketsSwept, AllTicketsStep, SweepSent;
      var loaded;
      ghost var ts;
      loaded, xs, ts, ms, views := Load();
      if loaded.Failure? {
        return Fail(loaded.error), 0, xs, ms, views;
      }
      r, visited := AllTicketsEach(loaded.value, pageStart, pageEnd);
    }

    /** `get_all_tickets` on `ps[i]`, which leaves the other projects as they were. */
    method AllTicketsAt(ps: seq<Project>, i: nat, pageStart: int, pageEnd: int, ghost attrs: map<string, Value>) returns (r: Outcome)
      requires Distinct(ps) && i < |ps| && ps[i].attrs == attrs
      modifies this`requests, ps[i]
      ensures forall j :: 0 <= j < |ps| && j != i ==>
        ps[j].attrs == old(ps[j].attrs) && ps[j].members == old(ps[j].members) && ps[j].TicketView() == old(ps[j].TicketView())
      ensures ps[i].attrs == attrs && ps[i].members == old(ps[i].members)
      ensures ps[i].TicketView() == Assign(old(ps[i].TicketView()), CallStored(AllTicketsCall(pageStart, pageEnd), attrs, url, server))
      ensures requests == old(requests) + CallSent(AllTicketsCall(pageStart, pageEnd), attrs, url, server)
      ensures r == AllTicketsOutcome(attrs, url, server, pageStart, pageEnd)
    {
      r := AllTicketsOf(ps[i], pageStart, pageEnd);
    }

    /** One turn of the loop of `fetch_all_tickets`: `get_all_tickets` on `ps[i]`. */
    method AllTicketsTurn(ps: seq<Project>, i: nat, pageStart: int, pageEnd: int, ghost xs: seq<map<string, Value>>,
                          ghost ms: seq<seq<Member>>, ghost views: seq<map<Value, Bag>>, ghost stores: seq<seq<(Value, Bag)>>,
                          ghost sent0: seq<Request>) returns (r: Outcome)
      requires Distinct(ps) && i < |ps|
      requires TicketsSwept(ps, xs, ms, views, stores, i)
      requires stores[i] == CallStored(AllTicketsCall(pageStart, pageEnd), xs[i], url, server)
      requires requests == sent0 + SweepSent(AllTicketsCall(pageStart, pageEnd), xs[..i], url, server)
      modifies this`requests, ps[i]
      ensures TicketsSwept(ps, xs, ms, views, stores, i + 1)
      ensures requests == sent0 + SweepSent(AllTicketsCall(pageStart, pageEnd), xs[..i + 1], url, server)
      ensures r == AllTicketsOutcome(xs[i], url, server, pageStart, pageEnd)
    {
      r := AllTicketsAt(ps, i, pageStart, pageEnd, xs[i]);
      SweepSentPrefix(AllTicketsCall(pageStart, pageEnd), xs, i, url, server, sent0);
    }

    /**
     The loop of `fetch_all_tickets` over the projects `ps`: the paging
     loop on each in turn until one fails. The first `visited` projects
     were walked, each sending its page requests and storing their
     tickets; the others are untouched.
     */
    method AllTicketsEach(ps: seq<Project>, pageStart: int, pageEnd: int) returns (r: Outcome, ghost visited: nat)
      requires Distinct(ps)
      modifies this`requests, ps
      ensures Sweep(old(AttrsOf(ps)), AllTicketsStep(url, server, pageStart, pageEnd), 0) == Swept(visited, r)
      ensures TicketsSwept(ps, old(AttrsOf(ps)), old(MemberLists(ps)), old(ViewsOf(ps)),
        Stores(AllTicketsCall(pageStart, pageEnd), old(AttrsOf(ps)), url, server), visited)
      ensures requests == old(requests) + SweepSent(AllTicketsCall(pageStart, pageEnd), old(AttrsOf(ps))[..visited], url, server)
    {
      // The loop reasons through the contracts of the list functions and of the per-project step.
      hide AttrsOf, TicketLists, MemberLists, ViewsOf, Stores, MemberStores;
      ghost var xs, ms, views := AttrsOf(ps), MemberLists(ps), ViewsOf(ps);
      ghost var u := url;
      ghost var stores := Stores(AllTicketsCall(pageStart, pageEnd), xs, u, server);
      var i := 0;
      while i < |ps|
        invariant i <= |ps| && url == u
        invariant TicketsSwept(ps, xs, ms, views, stores, i)
        invariant Sweep(xs, AllTicketsStep(u, server, pageStart, pageEnd), 0) == Sweep(xs, AllTicketsStep(u, server, pageStart, pageEnd), i)
        invariant requests == old(requests) + SweepSent(AllTicketsCall(pageStart, pageEnd), xs[..i], u, server)
      {
        var res := AllTicketsTurn(ps, i, pageStart, pageEnd, xs, ms, views, stores, old(requests));
        if res.Fail? {
          r, visited := res, i + 1;
          return;
        }
        i := i + 1;
      }
      r, visited := Pass, |ps|;
    }

    /**
     The target-project step of `add_ticket`: the project given, the
     first loaded project when None is given, or the lookup's result.
     */
    method Resolve(project: ProjectArg) returns (r: Result<Project>)
      requires Valid()
      modifies this`cache, this`requests
      ensures Valid()
      ensures requests == old(requests) + LoadSent(project.Instance? || old(cache).Some?, url)
      ensures project.Instance? || old(cache).Some? ==> cache == old(cache)
      ensures project.Plain? && old(cache).None? ==>
        && (cache.Some? <==> Listing(url, server).Success?)
        && (cache.Some? ==> Listed(url, server, Success(cache.value)))
      ensures r == if project.Plain? && cache.None? then Failure(Listing(url, server).error)
        else Target(project, if cache.Some? then cache.value else [])
    {
      if project.Instance? {
        return Success(project.p);
      }
      if project.v == VNone {
        var ps :- Projects();
        if ps == [] {
          return Failure(NoProjects);
        }
        return Success(ps[0]);
      }
      var found :- GetProject(project.v);
      if found.None? {
        return Failure(AttributeError("id"));
      }
      r := Success(found.value);
    }

    /** The creation step of `add_ticket`: posts the document for `target` and hydrates a new ticket from the reply. */
    method Create(target: Project, title: Option<string>, body: Option<string>) returns (r: Result<Ticket>)
      modifies this`requests
      ensures var req := CreationRequest(target, title, body);
        requests == old(requests) + if req.Success? && PostCheck(url, token).Pass? then [req.value] else []
      ensures Created(url, token, server, CreationRequest(target, title, body), r)
      ensures r.Success? ==> fresh(r.value)
    {
      var pid :- ProjectId(target.attrs);
      var reply :- PostData(TicketList(pid), CreationXml(Text(body), Text(title)));
      var t, err := NewTicket(reply, false);
      if err.Some? {
        return Failure(err.value);
      }
      r := Success(t);
    }

    /**
     `add_ticket`: picks the target project, posts the creation document
     to its ticket list and hydrates a new ticket from the reply, without
     recording field names.
     */
    method AddTicket(project: ProjectArg, title: Option<string>, body: Option<string>)
      returns (r: Result<Ticket>, ghost target: Result<Project>)
      requires Valid()
      modifies this`cache, this`requests
      ensures Valid()
      ensures project.Instance? || old(cache).Some? ==> cache == old(cache)
      ensures project.Plain? && old(cache).None? ==>
        && (cache.Some? <==> Listing(url, server).Success?)
        && (cache.Some? ==> Listed(url, server, Success(cache.value)))
      ensures target == if project.Plain? && cache.None? then Failure(Listing(url, server).error)
        else Target(project, if cache.Some? then cache.value else [])
      ensures
        var listed := LoadSent(project.Instance? || old(cache).Some?, url);
        var req := if target.Failure? then Failure(target.error) else CreationRequest(target.value, title, body);
        && requests == old(requests) + listed + (if req.Success? && PostCheck(url, token).Pass? then [req.value] else [])
        && Created(url, token, server, req, r)
      ensures r.Success? ==> fresh(r.value)
    {
      var resolved := Resolve(project);
      target := resolved;
      if resolved.Failure? {
        return Failure(resolved.error), target;
      }
      r := Create(resolved.value, title, body);
    }
  }
}

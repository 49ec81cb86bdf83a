/** The onboarding router: turning the nested onboarding form into a company
    row, reading and updating a company, and creating a user. Request bodies
    are parsed JSON values; reading a property of a missing section throws a
    TypeError, which the route's catch turns into a 500. */
module OnboardingRoutes {
  import opened Js
  import opened Seqs
  import opened Db
  import opened Effects

  // ---------------------------------------------------------------------
  // POST /company

  /** `body.section.key`: `None` when the section is undefined or null and
      the read throws. */
  function At(body: Value, section: string, key: string): (r: Option<Value>)
    ensures r.None? <==> GetProp(body, section).None? || GetProp(body, section).value.Undefined?
                         || GetProp(body, section).value.Null?
  {
    match GetProp(body, section)
    case None => None
    case Some(v) => GetProp(v, key)
  }

  /** The values `companyData` is built from. */
  datatype Onboarding = Onboarding(
    name: Value, industry: Value, arr: Value, industries: Value, sizes: Value,
    decisionMakers: Value, ticketSize: Value, channels: Value)

  /** The four sections the route destructures; each is read from. */
  predicate SectionsPresent(body: Value) {
    At(body, "company", "name").Some? && At(body, "financial", "arr").Some?
    && At(body, "icp", "industries").Some? && At(body, "marketing", "channels").Some?
  }

  /** Two bodies that agree on the eight properties the route reads. */
  predicate SameForm(a: Value, b: Value) {
    && At(a, "company", "name") == At(b, "company", "name")
    && At(a, "company", "industry") == At(b, "company", "industry")
    && At(a, "financial", "arr") == At(b, "financial", "arr")
    && At(a, "financial", "ticketSize") == At(b, "financial", "ticketSize")
    && At(a, "icp", "industries") == At(b, "icp", "industries")
    && At(a, "icp", "sizes") == At(b, "icp", "sizes")
    && At(a, "icp", "decisionMakers") == At(b, "icp", "decisionMakers")
    && At(a, "marketing", "channels") == At(b, "marketing", "channels")
  }

  /** Building `companyData`: `None` for the TypeError of a missing section. */
  function Read(body: Value): (r: Option<Onboarding>)
    ensures r.Some? <==> SectionsPresent(body)
    ensures r.Some? ==>
      && Some(r.value.name) == At(body, "company", "name") && Some(r.value.industry) == At(body, "company", "industry")
      && Some(r.value.arr) == At(body, "financial", "arr") && Some(r.value.ticketSize) == At(body, "financial", "ticketSize")
      && Some(r.value.industries) == At(body, "icp", "industries") && Some(r.value.sizes) == At(body, "icp", "sizes")
      && Some(r.value.decisionMakers) == At(body, "icp", "decisionMakers")
      && Some(r.value.channels) == At(body, "marketing", "channels")
  {
    if !SectionsPresent(body) then None
    else Some(Onboarding(
      At(body, "company", "name").value, At(body, "company", "industry").value, At(body, "financial", "arr").value,
      At(body, "icp", "industries").value, At(body, "icp", "sizes").value, At(body, "icp", "decisionMakers").value,
      At(body, "financial", "ticketSize").value, At(body, "marketing", "channels").value))
  }

  /** The ideal customer profile as it is serialised into the `icp` column. */
  function IcpObject(d: Onboarding): Value {
    Obj([Field("industries", d.industries), Field("sizes", d.sizes), Field("decisionMakers", d.decisionMakers)])
  }

  /** The inserted company row. */
  function CompanyRow(id: string, d: Onboarding, now: int, fmt: NumberText): (c: Company)
    ensures c.icp.Str? && |c.icp.s| >= 2 && c.icp.s[0] == '{' && c.icp.s[|c.icp.s| - 1] == '}'
  {
    Company(id, Column(d.name), Column(d.industry), Column(d.arr), Str(JsonText(IcpObject(d), fmt).value),
            Column(d.ticketSize), Column(d.channels), now)
  }

  /** `POST /company`. */
  function Onboard(st: Store, body: Value, ins: Insert, now: int, fmt: NumberText): (o: Outcome<Company>)
    ensures Read(body).None? ==> o == Refuse(st, 500, "Server error during onboarding")
    ensures Read(body).Some? && ins.InsertFailed? ==> o == Refuse(st, 500, ins.err.message)
    ensures o.reply.Ok? <==> Read(body).Some? && ins.Inserted?
    ensures o.reply.Ok? ==>
      && o.reply.status == 201 && o.reply.message == Some("Company onboarded successfully")
      && o.reply.data.id == ins.id
      && o.store == st.(companies := st.companies + [o.reply.data])
    ensures o.calls == [] && !o.warned
  {
    match Read(body)
    case None => Refuse(st, 500, "Server error during onboarding")
    case Some(d) =>
      match ins
      case InsertFailed(e) => Refuse(st, 500, e.message)
      case Inserted(id) =>
        var c := CompanyRow(id, d, now, fmt);
        Outcome(Ok(201, Some("Company onboarded successfully"), c), st.(companies := st.companies + [c]), [], false)
  }

  /** The row depends on nothing but the eight properties read: two bodies
      that agree on them give the same reply and store, so every other field
      of the body is dropped. */
  lemma OnboardDropsOtherFields(st: Store, a: Value, b: Value, ins: Insert, now: int, fmt: NumberText)
    requires SameForm(a, b)
    ensures Onboard(st, a, ins, now, fmt) == Onboard(st, b, ins, now, fmt)
  {
    assert SectionsPresent(a) == SectionsPresent(b);
  }

  /** The nested form the onboarding page sends. */
  function Form(name: Value, industry: Value, arr: Value, ticket: Value, channels: Value,
                industries: Value, sizes: Value, makers: Value): Value {
    Obj([Field("company", Obj([Field("name", name), Field("industry", industry)])),
         Field("financial", Obj([Field("arr", arr), Field("ticketSize", ticket)])),
         Field("icp", Obj([Field("industries", industries), Field("sizes", sizes), Field("decisionMakers", makers)])),
         Field("marketing", Obj([Field("channels", channels)]))])
  }

  /** Reading `body.section.key` where both keys occur once. */
  lemma AtUnique(fs: seq<Field>, i: nat, inner: seq<Field>, j: nat, section: string, key: string)
    requires i < |fs| && fs[i] == Field(section, Obj(inner)) && forall m :: i < m < |fs| ==> fs[m].key != section
    requires j < |inner| && inner[j].key == key && forall m :: j < m < |inner| ==> inner[m].key != key
    ensures At(Obj(fs), section, key) == Some(inner[j].val)
  {
    LastValueAt(fs, i, section);
    LastValueAt(inner, j, key);
  }

  /** The company and financial sections of the form are read back. */
  lemma FormFirstHalf(name: Value, industry: Value, arr: Value, ticket: Value, channels: Value,
                      industries: Value, sizes: Value, makers: Value)
    ensures var body := Form(name, industry, arr, ticket, channels, industries, sizes, makers);
      && At(body, "company", "name") == Some(name) && At(body, "company", "industry") == Some(industry)
      && At(body, "financial", "arr") == Some(arr) && At(body, "financial", "ticketSize") == Some(ticket)
  {
    var company := [Field("name", name), Field("industry", industry)];
    var financial := [Field("arr", arr), Field("ticketSize", ticket)];
    var fs := Form(name, industry, arr, ticket, channels, industries, sizes, makers).fields;
    assert |fs| == 4 && fs[0] == Field("company", Obj(company)) && fs[1] == Field("financial", Obj(financial));
    AtUnique(fs, 0, company, 0, "company", "name");
    AtUnique(fs, 0, company, 1, "company", "industry");
    AtUnique(fs, 1, financial, 0, "financial", "arr");
    AtUnique(fs, 1, financial, 1, "financial", "ticketSize");
  }

  /** The profile and marketing sections of the form are read back. */
  lemma FormSecondHalf(name: Value, industry: Value, arr: Value, ticket: Value, channels: Value,
                       industries: Value, sizes: Value, makers: Value)
    ensures var body := Form(name, industry, arr, ticket, channels, industries, sizes, makers);
      && At(body, "icp", "industries") == Some(industries) && At(body, "icp", "sizes") == Some(sizes)
      && At(body, "icp", "decisionMakers") == Some(makers) && At(body, "marketing", "channels") == Some(channels)
  {
    var icp := [Field("industries", industries), Field("sizes", sizes), Field("decisionMakers", makers)];
    var marketing := [Field("channels", channels)];
    var fs := Form(name, industry, arr, ticket, channels, industries, sizes, makers).fields;
    assert |fs| == 4 && fs[2] == Field("icp", Obj(icp)) && fs[3] == Field("marketing", Obj(marketing));
    AtUnique(fs, 2, icp, 0, "icp", "industries");
    AtUnique(fs, 2, icp, 1, "icp", "sizes");
    AtUnique(fs, 2, icp, 2, "icp", "decisionMakers");
    AtUnique(fs, 3, marketing, 0, "marketing", "channels");
  }

  /** Each value of the form is read from where the page put it. */
  lemma ReadForm(name: Value, industry: Value, arr: Value, ticket: Value, channels: Value,
                 industries: Value, sizes: Value, makers: Value)
    ensures Read(Form(name, industry, arr, ticket, channels, industries, sizes, makers))
         == Some(Onboarding(name, industry, arr, industries, sizes, makers, ticket, channels))
  {
    FormFirstHalf(name, industry, arr, ticket, channels, industries, sizes, makers);
    FormSecondHalf(name, industry, arr, ticket, channels, industries, sizes, makers);
  }

  /** The row takes the company's name and industry, the financial `arr` and
      `ticketSize`, and the marketing channels, each as sent; `icp` holds the
      serialisation of exactly the three profile fields. */
  lemma OnboardStoresForm(st: Store, name: Value, industry: Value, arr: Value, ticket: Value, channels: Value,
                          industries: Value, sizes: Value, makers: Value, id: string, now: int, fmt: NumberText)
    requires !name.Undefined? && !industry.Undefined? && !arr.Undefined? && !ticket.Undefined? && !channels.Undefined?
    ensures var o := Onboard(st, Form(name, industry, arr, ticket, channels, industries, sizes, makers), Inserted(id), now, fmt);
      && o.reply.Ok?
      && var c := o.reply.data;
      && c.name == name && c.industry == industry && c.arr == arr && c.ticketSize == ticket && c.channels == channels
      && c.icp == Str(JsonText(Obj([Field("industries", industries), Field("sizes", sizes),
                                    Field("decisionMakers", makers)]), fmt).value)
  {
    ReadForm(name, industry, arr, ticket, channels, industries, sizes, makers);
  }

  // ---------------------------------------------------------------------
  // GET /company/:id

  function GetCompany(st: Store, id: string, fault: Option<DbError>): (r: Reply<Company>)
    ensures fault.Some? ==> r == Fail(500, fault.value.message)
    ensures fault.None? && Filter(st.companies, CompanyIdIs(id)) == [] ==> r == Fail(404, "Company not found")
    ensures fault.None? && Filter(st.companies, CompanyIdIs(id)) != [] ==> r == Ok(200, None, Filter(st.companies, CompanyIdIs(id))[0])
    ensures r.Ok? ==> r.status == 200 && r.data in st.companies && r.data.id == id
  {
    match fault
    case Some(e) => Fail(500, e.message)
    case None =>
      var found := Filter(st.companies, CompanyIdIs(id));
      if |found| == 0 then Fail(404, "Company not found")
      else
        FilterMembers(st.companies, CompanyIdIs(id));
        assert found[0] in found;
        Ok(200, None, found[0])
  }

  /** A company just onboarded is found by its id. */
  lemma OnboardThenGet(st: Store, body: Value, id: string, now: int, fmt: NumberText)
    requires Read(body).Some?
    requires forall c :: c in st.companies ==> c.id != id
    ensures var o := Onboard(st, body, Inserted(id), now, fmt);
      GetCompany(o.store, id, None) == Ok(200, None, o.reply.data)
  {
    var c := CompanyRow(id, Read(body).value, now, fmt);
    assert forall i :: 0 <= i < |st.companies| ==> st.companies[i] in st.companies;
    FilterKeepsNone(st.companies, CompanyIdIs(id));
    FilterAppend(st.companies, [c], CompanyIdIs(id));
    FilterOne(c, CompanyIdIs(id));
  }

  // ---------------------------------------------------------------------
  // PUT /company/:id

  /** The body's value for a column, or the row's current one when the body
      does not name it. */
  function Updated(updates: seq<Field>, key: string, current: Value): Value {
    if exists i :: 0 <= i < |updates| && updates[i].key == key then Column(LastValue(updates, key)) else current
  }

  /** `update(req.body)` on one row: every data column the body names takes
      the body's value, as the last occurrence in the parsed JSON gives it. */
  function ApplyUpdates(c: Company, updates: seq<Field>): (r: Company)
    ensures r.id == c.id && r.createdAt == c.createdAt
  {
    c.(name := Updated(updates, "name", c.name), industry := Updated(updates, "industry", c.industry),
       arr := Updated(updates, "arr", c.arr), icp := Updated(updates, "icp", c.icp),
       ticketSize := Updated(updates, "ticket_size", c.ticketSize), channels := Updated(updates, "channels", c.channels))
  }

  /** `PUT /company/:id`. */
  function UpdateCompany(st: Store, id: string, updates: seq<Field>, fault: Option<DbError>): (o: Outcome<Option<Company>>)
    ensures fault.Some? ==> o == Refuse(st, 500, fault.value.message)
    ensures fault.None? ==>
      && o.reply.Ok? && o.reply.status == 200 && o.reply.message == Some("Company updated successfully")
      && o.store.(companies := st.companies) == st && |o.store.companies| == |st.companies|
      && o.reply.data == First(Filter(o.store.companies, CompanyIdIs(id)))
      && forall i :: 0 <= i < |st.companies| ==>
           o.store.companies[i] == if st.companies[i].id == id then ApplyUpdates(st.companies[i], updates) else st.companies[i]
  {
    match fault
    case Some(e) => Refuse(st, 500, e.message)
    case None =>
      var companies := Replace(st.companies, CompanyIdIs(id), (c: Company) => ApplyUpdates(c, updates));
      Outcome(Ok(200, Some("Company updated successfully"), First(Filter(companies, CompanyIdIs(id)))),
              st.(companies := companies), [], false)
  }

  /** A column the body does not name keeps its value; one it names takes the
      value last given for it. */
  lemma UpdateTouchesNamedColumns(c: Company, updates: seq<Field>, v: Value)
    ensures (forall i :: 0 <= i < |updates| ==> updates[i].key != "name") ==> ApplyUpdates(c, updates).name == c.name
    ensures !v.Undefined? ==> ApplyUpdates(c, updates + [Field("name", v)]).name == v
    ensures !v.Undefined? ==> ApplyUpdates(c, updates + [Field("ticket_size", v)]).ticketSize == v
  {
    var u := updates + [Field("name", v)];
    assert u[|u| - 1].key == "name";
    var w := updates + [Field("ticket_size", v)];
    assert w[|w| - 1].key == "ticket_size";
  }

  // ---------------------------------------------------------------------
  // POST /user

  /** `POST /user`: the three fields are copied as sent. */
  function CreateUser(st: Store, body: Value, ins: Insert, now: int): (o: Outcome<User>)
    ensures body.Undefined? || body.Null? ==> o == Refuse(st, 500, "Server error creating user")
    ensures !body.Undefined? && !body.Null? && ins.InsertFailed? ==> o == Refuse(st, 500, ins.err.message)
    ensures o.reply.Ok? <==> !body.Undefined? && !body.Null? && ins.Inserted?
    ensures o.reply.Ok? ==>
      && o.reply.status == 201 && o.reply.message == Some("User created successfully")
      && o.reply.data.id == ins.id
      && o.store == st.(users := st.users + [o.reply.data])
  {
    if body.Undefined? || body.Null? then Refuse(st, 500, "Server error creating user")
    else match ins
      case InsertFailed(e) => Refuse(st, 500, e.message)
      case Inserted(id) =>
        var u := User(id, Column(GetProp(body, "email").value), Column(GetProp(body, "company_id").value),
                      Column(GetProp(body, "role").value), now);
        Outcome(Ok(201, Some("User created successfully"), u), st.(users := st.users + [u]), [], false)
  }

  /** The stored user carries the email, company id and role exactly as sent,
      a field left out of the body being stored as null. */
  lemma CreateUserCopies(st: Store, email: Value, companyId: Value, role: Value, id: string, now: int)
    requires !email.Undefined? && !companyId.Undefined? && !role.Undefined?
    ensures var o := CreateUser(st, Obj([Field("email", email), Field("company_id", companyId), Field("role", role)]),
                                Inserted(id), now);
      && o.reply.Ok? && o.reply.data.email == email && o.reply.data.companyId == companyId && o.reply.data.role == role
    ensures CreateUser(st, Obj([Field("email", email)]), Inserted(id), now).reply.data.role == Null
  {
    var fs := [Field("email", email), Field("company_id", companyId), Field("role", role)];
    LastValueAt(fs, 0, "email");
    LastValueAt(fs, 1, "company_id");
    LastValueAt(fs, 2, "role");
    assert LastValue([Field("email", email)], "role") == Undefined;
  }
}

/** The demo organisation and its two lines, lib/mock-data.ts, and the lookup
    helpers over them. */
module MockData {
  import opened Wrappers
  import opened Seqs

  datatype Organization = Organization(id: string, name: string, description: Option<string>)

  datatype Line = Line(
    id: string,
    orgId: string,
    name: string,
    status: Option<string>,
    outputPerHour: Option<real>,
    lastUpdate: Option<string>)

  /** The second, described declaration of `organizations`. */
  const Organizations: seq<Organization> := [
    Organization("org-1", "Demo Factory", Some("Lean KPI demo workspace"))
  ]

  const Lines: seq<Line> := [
    Line("line-1", "org-1", "Assembly Line 1", Some("running"), Some(120.0), Some("10 min ago")),
    Line("line-2", "org-1", "Assembly Line 2", Some("stopped"), Some(0.0), Some("1 hour ago"))
  ]

  function OrgIdIs(id: string): Organization -> bool {
    (o: Organization) => o.id == id
  }

  function LineIdIs(id: string): Line -> bool {
    (l: Line) => l.id == id
  }

  function LineOrgIs(orgId: string): Line -> bool {
    (l: Line) => l.orgId == orgId
  }

  function GetOrganizations(): (r: seq<Organization>)
    ensures r == Organizations
  {
    Organizations
  }

  /** `organizations.find(o => o.id === id)` */
  function GetOrganizationById(id: string): (r: Option<Organization>)
    ensures r.Some? ==> r.value in Organizations && r.value.id == id
    ensures r.None? <==> forall i :: 0 <= i < |Organizations| ==> Organizations[i].id != id
  {
    Find(Organizations, OrgIdIs(id))
  }

  /** `lines.filter(l => l.orgId === orgId)` */
  function GetLinesForOrg(orgId: string): (r: seq<Line>)
    ensures forall l :: l in r <==> l in Lines && l.orgId == orgId
  {
    Filter(Lines, LineOrgIs(orgId))
  }

  /** `lines.find(l => l.id === lineId)` */
  function GetLineById(lineId: string): (r: Option<Line>)
    ensures r.Some? ==> r.value in Lines && r.value.id == lineId
    ensures r.None? <==> forall i :: 0 <= i < |Lines| ==> Lines[i].id != lineId
  {
    Find(Lines, LineIdIs(lineId))
  }

  /** The line ids of the fixture are distinct, so looking a line up by its
      own id finds that line. */
  lemma LineLookupRoundTrip(l: Line)
    requires l in Lines
    ensures GetLineById(l.id) == Some(l)
  {
    var r := GetLineById(l.id);
    assert r.Some?;
    assert r.value == Lines[0] || r.value == Lines[1];
  }

  /** Every line belongs to an organisation that can be looked up, and is
      listed among that organisation's lines. */
  lemma LinesReferenceOrganizations(l: Line)
    requires l in Lines
    ensures GetOrganizationById(l.orgId) == Some(Organizations[0])
    ensures l in GetLinesForOrg(l.orgId)
  {
    assert Organizations[0].id == l.orgId;
    var r := GetOrganizationById(l.orgId);
    assert r.Some?;
  }

  /** "org-1" owns both lines, in fixture order; any other id owns none. */
  lemma LinesPerOrg(orgId: string)
    ensures GetLinesForOrg("org-1") == Lines
    ensures orgId != "org-1" ==> GetLinesForOrg(orgId) == []
  {
    FilterAll(Lines, LineOrgIs("org-1"));
  }

  /** An unknown id finds nothing. */
  lemma UnknownIdsFindNothing()
    ensures GetLineById("line-3").None?
    ensures GetOrganizationById("org-2").None?
  {
  }
}

/** The ODP location checker: which currently deployed hydrophone locations
    might be Ocean Drilling Program sites, judged from their names. The
    deployment list and the per-location detail lookups are inputs; the
    printed report is left out. */
module CheckOdp {
  import opened Text

  /** A deployment as the archive returns it: `end` is absent or empty while
      the deployment is still active. */
  datatype Deployment = Deployment(locationCode: string, end: Option<string>)

  /** The outcome of the detail lookup for one location code: the call
      failed, or it returned these records, each with its `locationName`
      when the record has one. */
  datatype Details = Failed | Records(names: seq<Option<string>>)

  /** An active location with its display name. */
  datatype LocationInfo = LocationInfo(locationCode: string, locationName: string)

  /** A location whose name suggests an ODP site: `potentialOdp` for drilling
      keywords, otherwise a region note. */
  datatype Candidate = Candidate(locationCode: string, locationName: string, potentialOdp: bool, note: Option<string>)

  predicate Active(d: Deployment) {
    d.end.None? || d.end.value == ""
  }

  /** The info kept for an active deployment, if its lookup gave a record. */
  function InfoOf(d: Deployment, details: Details): (r: Option<LocationInfo>)
    ensures r.Some? <==> Active(d) && details.Records? && details.names != []
    ensures r.Some? ==> r.value.locationCode == d.locationCode
    ensures r.Some? ==> r.value.locationName == (if details.names[0].Some? then details.names[0].value else "Unknown")
  {
    if !Active(d) then None
    else match details
      case Failed => None
      case Records(names) =>
        if names == [] then None
        else Some(LocationInfo(d.locationCode, if names[0].Some? then names[0].value else "Unknown"))
  }

  /** The infos of the active, successfully looked-up deployments, in order. */
  function Infos(ds: seq<Deployment>, lookup: string -> Details): seq<LocationInfo> {
    FilterMap(ds, InfoWith(lookup))
  }

  /** `InfoOf` with the lookup applied to the deployment's location code. */
  function InfoWith(lookup: string -> Details): Deployment -> Option<LocationInfo> {
    (d: Deployment) => InfoOf(d, lookup(d.locationCode))
  }

  /** Every kept info comes from an active deployment whose lookup
      succeeded, and every such deployment is kept. */
  lemma InfosMembers(ds: seq<Deployment>, lookup: string -> Details)
    ensures |Infos(ds, lookup)| <= |ds|
    ensures forall info :: info in Infos(ds, lookup) <==>
              exists i :: 0 <= i < |ds| && InfoOf(ds[i], lookup(ds[i].locationCode)) == Some(info)
  {
    forall info ensures info in Infos(ds, lookup) <==>
                          exists i :: 0 <= i < |ds| && InfoOf(ds[i], lookup(ds[i].locationCode)) == Some(info) {
      FilterMapMembers(ds, InfoWith(lookup), info);
    }
  }

  /** Keywords that mark a probable drilling site. */
  const DrillingKeywords: seq<string> := ["ODP", "OCEAN DRILLING", "DRILLING PROGRAM", "SITE 1027", "SITE 889"]

  /** Keywords of the region where the drilling sites lie. */
  const RegionKeywords: seq<string> := ["CASCADIA", "BASIN", "BARKLEY", "FOLGER"]

  const RegionNote: string := "In Cascadia Basin region where ODP sites are located"

  /** The candidate entry for one location, judged on its upper-cased name;
      drilling keywords take precedence over region keywords. */
  function CandidateOf(info: LocationInfo): (r: Option<Candidate>)
    ensures r.Some? <==> AnyIn(DrillingKeywords, Upper(info.locationName)) || AnyIn(RegionKeywords, Upper(info.locationName))
    ensures r.Some? ==> r.value.locationCode == info.locationCode && r.value.locationName == info.locationName
    ensures r.Some? ==> (r.value.potentialOdp <==> AnyIn(DrillingKeywords, Upper(info.locationName)))
    ensures r.Some? ==> (r.value.note.Some? <==> !r.value.potentialOdp)
  {
    var name := Upper(info.locationName);
    if AnyIn(DrillingKeywords, name) then Some(Candidate(info.locationCode, info.locationName, true, None))
    else if AnyIn(RegionKeywords, name) then Some(Candidate(info.locationCode, info.locationName, false, Some(RegionNote)))
    else None
  }

  /** The candidates among `infos`, in order. */
  function Candidates(infos: seq<LocationInfo>): seq<Candidate> {
    FilterMap(infos, CandidateOf)
  }

  /** The candidates are the locations whose names carry a drilling or
      region keyword, each judged by `CandidateOf`, in input order. */
  lemma CandidatesMembers(infos: seq<LocationInfo>)
    ensures |Candidates(infos)| <= |infos|
    ensures forall c :: c in Candidates(infos) <==> exists i :: 0 <= i < |infos| && CandidateOf(infos[i]) == Some(c)
  {
    forall c ensures c in Candidates(infos) <==> exists i :: 0 <= i < |infos| && CandidateOf(infos[i]) == Some(c) {
      FilterMapMembers(infos, CandidateOf, c);
    }
  }

  /** `check_odp_locations` without its printing: collect the active
      locations, then pick the candidates. */
  method CheckOdpLocations(deployments: seq<Deployment>, lookup: string -> Details)
    returns (infos: seq<LocationInfo>, candidates: seq<Candidate>)
    ensures infos == Infos(deployments, lookup)
    ensures candidates == Candidates(infos)
  {
    infos := CollectInfos(deployments, lookup);
    candidates := PickCandidates(infos);
  }

  /** The loop that looks up each active deployment's location. */
  method CollectInfos(deployments: seq<Deployment>, lookup: string -> Details) returns (infos: seq<LocationInfo>)
    ensures infos == Infos(deployments, lookup)
  {
    infos := [];
    var i := 0;
    while i < |deployments|
      invariant 0 <= i <= |deployments|
      invariant infos == Infos(deployments[..i], lookup)
    {
      FilterMapStep(deployments, InfoWith(lookup), i);
      var d := deployments[i];
      assert InfoWith(lookup)(d) == InfoOf(d, lookup(d.locationCode));
      if d.end.None? || d.end.value == "" {
        var details := lookup(d.locationCode);
        if details.Records? && details.names != [] {
          var name := if details.names[0].Some? then details.names[0].value else "Unknown";
          infos := infos + [LocationInfo(d.locationCode, name)];
        }
      }
      i := i + 1;
    }
    assert deployments[..i] == deployments;
  }

  /** The loop that judges each location's name. */
  method PickCandidates(infos: seq<LocationInfo>) returns (candidates: seq<Candidate>)
    ensures candidates == Candidates(infos)
  {
    candidates := [];
    var j := 0;
    while j < |infos|
      invariant 0 <= j <= |infos|
      invariant candidates == Candidates(infos[..j])
    {
      FilterMapStep(infos, CandidateOf, j);
      var name := Upper(infos[j].locationName);
      if AnyIn(DrillingKeywords, name) {
        candidates := candidates + [Candidate(infos[j].locationCode, infos[j].locationName, true, None)];
      } else if AnyIn(RegionKeywords, name) {
        candidates := candidates + [Candidate(infos[j].locationCode, infos[j].locationName, false, Some(RegionNote))];
      }
      j := j + 1;
    }
    assert infos[..j] == infos;
  }
}

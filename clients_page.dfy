/**
 * The clients page (app/clients/page.tsx): one client record per distinct client name among
 * the loan applications, with loan and claim totals, and a search and status filter over
 * those records.
 */
module ClientsPage {
  import opened Wrappers
  import opened Types
  import opened Seqs
  import opened Text
  import opened Counts

  /** The record the page derives for a client. Phone number and joining date are random and
      are not part of the model. */
  datatype Client = Client(
    id: string,
    name: string,
    email: string,
    businessName: string,
    totalLoans: nat,
    activeLoans: nat,
    totalAmount: real,
    pendingClaims: nat,
    status: string,
    applications: seq<LoanApplication>,
    claims: seq<ExpenseClaim>)

  function ClientName(app: LoanApplication): string
  {
    app.clientName
  }

  /** The distinct client names of the applications, in order of first appearance. */
  function ClientNames(apps: seq<LoanApplication>): (names: seq<string>)
    ensures forall n :: n in names <==> exists i :: 0 <= i < |apps| && apps[i].clientName == n
    ensures NoDuplicates(names)
    ensures forall n :: n in names ==> n in Names(apps, ClientName)
    ensures forall i, j :: 0 <= i < j < |names| ==>
      IndexOf(Names(apps, ClientName), names[i]) < IndexOf(Names(apps, ClientName), names[j])
  {
    var all := Names(apps, ClientName);
    DistinctFirstOccurrenceOrder(all);
    assert forall n :: n in all <==> exists i :: 0 <= i < |apps| && apps[i].clientName == n by {
      forall n | n in all ensures exists i :: 0 <= i < |apps| && apps[i].clientName == n {
        var i :| 0 <= i < |all| && all[i] == n;
        assert apps[i].clientName == n;
      }
    }
    Distinct(all)
  }

  function ByClient(name: string): LoanApplication -> bool
  {
    (app: LoanApplication) => app.clientName == name
  }

  /** A claim belongs to the client whose name it carries; a claim without one belongs to
      nobody. */
  function ClaimByClient(name: string): ExpenseClaim -> bool
  {
    (claim: ExpenseClaim) => claim.clientName == Some(name)
  }

  predicate IsApprovedApplication(app: LoanApplication)
  {
    LoanStatusName(app.status) == "approved"
  }

  predicate IsPendingClaim(claim: ExpenseClaim)
  {
    ReviewStatusName(claim.status) == "pending"
  }

  function Amount(app: LoanApplication): real
  {
    app.amount
  }

  /** `s.replace(" ", ".")` with a string pattern: only the first occurrence is replaced. */
  function ReplaceFirst(s: string, from: char, to: char): (r: string)
    ensures from !in s ==> r == s
    ensures from in s ==> r == s[..IndexOf(s, from)] + [to] + s[IndexOf(s, from) + 1..]
  {
    if s == [] then []
    else if s[0] == from then [to] + s[1..]
    else
      assert s == [s[0]] + s[1..];
      [s[0]] + ReplaceFirst(s[1..], from, to)
  }

  /** The client's e-mail address: the lower-cased name with its first space turned into a
      dot, at `email.com`. */
  function Email(name: string): (email: string)
    ensures |email| == |name| + 10
    ensures email[|name|..] == "@email.com"
    ensures ' ' in name ==> email[IndexOf(name, ' ')] == '.'
    ensures forall k :: 0 <= k < |name| && (' ' !in name || k != IndexOf(name, ' ')) ==> email[k] == LowerChar(name[k])
    ensures forall k :: 0 <= k < |name| ==> !('A' <= email[k] <= 'Z')
  {
    var low := Lower(name);
    var dotted := ReplaceFirst(low, ' ', '.');
    assert |dotted| == |name| && forall k :: 0 <= k < |name| ==>
      dotted[k] == if ' ' in name && k == IndexOf(name, ' ') then '.' else low[k]
    by {
      if ' ' in name {
        LowerKeepsSpaces(name);
        ReplaceFirstAt(low, ' ', '.', IndexOf(name, ' '));
        forall k | 0 <= k < |name| ensures dotted[k] == if k == IndexOf(name, ' ') then '.' else low[k] {
          ReplaceFirstAt(low, ' ', '.', k);
        }
      } else {
        assert ' ' !in low;
      }
    }
    dotted + "@email.com"
  }

  /** A space of the name stays a space in the address unless it is the first one, which
      becomes the dot. */
  lemma EmailReplacesFirstSpaceOnly(name: string, i: nat)
    requires i < |name| && name[i] == ' '
    ensures ' ' in name && IndexOf(name, ' ') <= i
    ensures Email(name)[i] == if i == IndexOf(name, ' ') then '.' else ' '
  {
    FirstOccurrenceBefore(name, ' ', i);
  }

  /** A first and a last name without spaces give "first.last@email.com", lower-cased. */
  lemma EmailOfFullName(first: string, last: string)
    requires ' ' !in first && ' ' !in last
    ensures Email(first + " " + last) == Lower(first) + "." + Lower(last) + "@email.com"
  {
    var name := first + " " + last;
    assert name[|first|] == ' ';
    assert IndexOf(name, ' ') == |first| by {
      assert name[..|first|] == first;
    }
    var lf, ll := Lower(first), Lower(last);
    var local := lf + "." + ll;
    var e := Email(name);
    assert |local| == |name|;
    forall k | 0 <= k < |name| ensures e[k] == local[k] {
      if k < |first| {
        assert name[k] == first[k] && local[k] == lf[k];
      } else if k > |first| {
        assert name[k] == last[k - |first| - 1] && local[k] == ll[k - |first| - 1];
      }
    }
    assert e[..|name|] == local;
    assert e == e[..|name|] + e[|name|..];
  }

  /** The first occurrence comes no later than any occurrence. */
  lemma FirstOccurrenceBefore(s: string, c: char, i: nat)
    requires i < |s| && s[i] == c
    ensures c in s && IndexOf(s, c) <= i
  {
    assert c in s;
  }

  /** Replacing the first occurrence changes that position and no other. */
  lemma ReplaceFirstAt(s: string, from: char, to: char, j: nat)
    requires from in s && j < |s|
    ensures |ReplaceFirst(s, from, to)| == |s|
    ensures ReplaceFirst(s, from, to)[j] == if j == IndexOf(s, from) then to else s[j]
  {
    var first := IndexOf(s, from);
    var head := s[..first] + [to];
    assert ReplaceFirst(s, from, to) == head + s[first + 1..];
    if j > first {
      assert (head + s[first + 1..])[j] == s[first + 1..][j - (first + 1)];
    } else if j < first {
      assert (head + s[first + 1..])[j] == s[..first][j];
    }
  }

  /** Lower-casing leaves spaces where they are. */
  lemma LowerKeepsSpaces(name: string)
    requires ' ' in name
    ensures ' ' in Lower(name) && IndexOf(Lower(name), ' ') == IndexOf(name, ' ')
  {
    var low := Lower(name);
    var k := IndexOf(name, ' ');
    assert low[k] == ' ';
    forall m | 0 <= m < k ensures low[m] != ' ' {
      assert name[..k][m] == name[m];
    }
  }

  /** The business name of the client's first application, or "N/A" when there is none or
      it is empty (an empty string is falsy). */
  function BusinessNameOf(apps: seq<LoanApplication>): (b: string)
    ensures b != ""
    ensures apps != [] && apps[0].businessName.Some? && apps[0].businessName.value != "" ==> b == apps[0].businessName.value
  {
    if apps == [] then "N/A"
    else match apps[0].businessName
      case None => "N/A"
      case Some(b) => if b == "" then "N/A" else b
  }

  function ClientId(index: nat): string
  {
    "client-" + NatToString(index + 1)
  }

  lemma ClientIdsDistinct(i: nat, j: nat)
    requires i != j
    ensures ClientId(i) != ClientId(j)
  {
    if NatToString(i + 1) == NatToString(j + 1) {
      NatToStringInjective(i + 1, j + 1);
    }
    PrefixedDistinct("client-", NatToString(i + 1), NatToString(j + 1));
  }

  /** The record for the client `name` at position `index`. */
  function MakeClient(apps: seq<LoanApplication>, claims: seq<ExpenseClaim>, name: string, index: nat): (c: Client)
    ensures c.applications == Filter(apps, ByClient(name)) && c.claims == Filter(claims, ClaimByClient(name))
    ensures c.totalLoans == |c.applications|
    ensures c.activeLoans == Count(c.applications, IsApprovedApplication)
    ensures c.totalAmount == Sum(c.applications, Amount)
    ensures c.pendingClaims == Count(c.claims, IsPendingClaim)
    ensures c.status == "active" <==> c.activeLoans > 0
    ensures c.status == "active" || c.status == "inactive"
  {
    var clientApplications := Filter(apps, ByClient(name));
    var clientClaims := Filter(claims, ClaimByClient(name));
    var approved := Find(clientApplications, IsApprovedApplication);
    FindIffCount(clientApplications, IsApprovedApplication);
    Client(
      ClientId(index), name, Email(name), BusinessNameOf(clientApplications),
      |clientApplications|,
      Count(clientApplications, IsApprovedApplication),
      Sum(clientApplications, Amount),
      Count(clientClaims, IsPendingClaim),
      if approved.Some? then "active" else "inactive",
      clientApplications, clientClaims)
  }

  /** `mockClients`: one record per distinct client name, numbered in order of first
      appearance. */
  function Clients(apps: seq<LoanApplication>, claims: seq<ExpenseClaim>): (cs: seq<Client>)
    ensures |cs| == |ClientNames(apps)|
  {
    var names := ClientNames(apps);
    seq(|names|, i requires 0 <= i < |names| => MakeClient(apps, claims, names[i], i))
  }

  /** The record at position `k` belongs to the `k`-th distinct name and has id
      `client-(k+1)`. */
  lemma ClientAt(apps: seq<LoanApplication>, claims: seq<ExpenseClaim>, k: nat)
    requires k < |Clients(apps, claims)|
    ensures var c := Clients(apps, claims)[k];
      c.name == ClientNames(apps)[k] && c.id == ClientId(k)
      && c.totalLoans == |Filter(apps, ByClient(c.name))|
  {
  }

  /** Every client name that occurs in the applications has a record. */
  lemma EveryClientListed(apps: seq<LoanApplication>, claims: seq<ExpenseClaim>, i: nat)
    requires i < |apps|
    ensures exists k :: 0 <= k < |Clients(apps, claims)| && Clients(apps, claims)[k].name == apps[i].clientName
  {
    var names := ClientNames(apps);
    assert apps[i].clientName in names;
    var k :| 0 <= k < |names| && names[k] == apps[i].clientName;
    ClientAt(apps, claims, k);
  }

  /** No two records share a name or an id. */
  lemma ClientsDistinct(apps: seq<LoanApplication>, claims: seq<ExpenseClaim>, k: nat, l: nat)
    requires k < l < |Clients(apps, claims)|
    ensures Clients(apps, claims)[k].name != Clients(apps, claims)[l].name
    ensures Clients(apps, claims)[k].id != Clients(apps, claims)[l].id
  {
    ClientAt(apps, claims, k);
    ClientAt(apps, claims, l);
    ClientIdsDistinct(k, l);
  }

  /** Every record has at least one application. */
  lemma EveryClientHasLoans(apps: seq<LoanApplication>, claims: seq<ExpenseClaim>, k: nat)
    requires k < |Clients(apps, claims)|
    ensures Clients(apps, claims)[k].totalLoans >= 1
  {
    var names := ClientNames(apps);
    ClientAt(apps, claims, k);
    assert names[k] in names;
    var i :| 0 <= i < |apps| && apps[i].clientName == names[k];
    assert apps[i] in Filter(apps, ByClient(names[k]));
  }

  function TotalLoans(cs: seq<Client>): nat
  {
    if cs == [] then 0 else cs[0].totalLoans + TotalLoans(cs[1..])
  }

  /** Records whose loan counts are those of `names` add up to the counts of those names. */
  lemma {:induction false} TotalLoansOfNames(apps: seq<LoanApplication>, cs: seq<Client>, names: seq<string>)
    requires |cs| == |names|
    requires forall k :: 0 <= k < |cs| ==> cs[k].totalLoans == |Filter(apps, ByClient(names[k]))|
    ensures TotalLoans(cs) == TotalCount(multiset(Names(apps, ClientName)), names)
  {
    if cs != [] {
      assert forall k :: 0 <= k < |cs[1..]| ==> cs[1..][k] == cs[k + 1] && names[1..][k] == names[k + 1];
      TotalLoansOfNames(apps, cs[1..], names[1..]);
      NamesCount(apps, ClientName, names[0], ByClient(names[0]));
      FilterCount(apps, ByClient(names[0]));
    }
  }

  /** Every application is counted in exactly one client's "total loans". */
  lemma TotalLoansCoverApplications(apps: seq<LoanApplication>, claims: seq<ExpenseClaim>)
    ensures TotalLoans(Clients(apps, claims)) == |apps|
  {
    var keys := Names(apps, ClientName);
    var names := ClientNames(apps);
    var cs := Clients(apps, claims);
    forall i | 0 <= i < |keys| ensures keys[i] in names {
      assert keys[i] == apps[i].clientName;
    }
    forall k | 0 <= k < |cs| ensures cs[k].totalLoans == |Filter(apps, ByClient(names[k]))| {
      ClientAt(apps, claims, k);
    }
    TotalLoansOfNames(apps, cs, names);
    CountsCoverAll(keys, names);
  }

  /** The search covers the client's name and business name; the status filter is "all",
      "active" or "inactive". */
  predicate ClientMatches(c: Client, searchTerm: string, statusFilter: string)
  {
    (MatchesTerm(c.name, searchTerm) || MatchesTerm(c.businessName, searchTerm))
    && (statusFilter == "all" || c.status == statusFilter)
  }

  function ClientFilter(searchTerm: string, statusFilter: string): Client -> bool
  {
    (c: Client) => ClientMatches(c, searchTerm, statusFilter)
  }

  /** `filteredClients`. */
  function FilteredClients(cs: seq<Client>, searchTerm: string, statusFilter: string): (r: seq<Client>)
    ensures forall c :: c in r <==> c in cs && ClientMatches(c, searchTerm, statusFilter)
    ensures IsSubseq(r, cs)
    ensures KeepsEveryCopy(r, cs, ClientFilter(searchTerm, statusFilter))
  {
    FilterIsSubseq(cs, ClientFilter(searchTerm, statusFilter));
    FilterKeepsEveryCopy(cs, ClientFilter(searchTerm, statusFilter));
    Filter(cs, ClientFilter(searchTerm, statusFilter))
  }

  /** The "active" and "inactive" filters split the clients between them. */
  lemma StatusFiltersPartition(cs: seq<Client>, searchTerm: string, apps: seq<LoanApplication>, claims: seq<ExpenseClaim>)
    requires cs == Clients(apps, claims)
    ensures forall c :: c in FilteredClients(cs, searchTerm, "all") <==>
      c in FilteredClients(cs, searchTerm, "active") || c in FilteredClients(cs, searchTerm, "inactive")
  {
    forall c | c in cs ensures c.status == "active" || c.status == "inactive" {
      var k :| 0 <= k < |cs| && cs[k] == c;
    }
  }
}

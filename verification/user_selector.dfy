/** `UserSelector`'s recipient search: the users other than the current
    one and the admins whose names contain the search term, after lower-casing both,
    at most five, in the order of the user list. */
module Recipients {
  import Seqs
  import opened Chars

  const MaxSuggestions: nat := 5
  const AdminRole := "admin"

  datatype User = User(id: string, name: string, role: string, balance: real)

  /** The filter's condition for one user. */
  predicate Matches(currentUserId: string, term: string, u: User) {
    && u.id != currentUserId
    && u.role != AdminRole
    && Contains(LowerString(u.name), LowerString(term))
  }

  function MatchFilter(currentUserId: string, term: string): User -> bool {
    (u: User) => Matches(currentUserId, term, u)
  }

  /** The search folds case beyond ASCII: "øy" finds "Øyvind". */
  lemma LatinOneNameFound()
    ensures Matches("me", "øy", User("u1", "Øyvind", "user", 0.0))
  {
    var name := LowerString("Øyvind");
    assert name[0] == 'ø' && name[1] == 'y';
    assert OccursAt(name, LowerString("øy"), 0);
  }

  /** `filteredUsers`: empty for an empty term, otherwise the first five
      matches. */
  function FilteredUsers(allUsers: seq<User>, currentUserId: string, term: string): (r: seq<User>)
    ensures |r| <= MaxSuggestions
    ensures term == "" ==> r == []
    ensures forall u :: u in r ==> u in allUsers && Matches(currentUserId, term, u)
  {
    if term == "" then []
    else
      var r := Seqs.Take(Seqs.Filter(allUsers, MatchFilter(currentUserId, term)), MaxSuggestions);
      assert forall u :: u in r ==> u in Seqs.Filter(allUsers, MatchFilter(currentUserId, term));
      r
  }

  /** Nothing that matches is dropped unless five suggestions are shown. */
  lemma FilteredComplete(allUsers: seq<User>, currentUserId: string, term: string, u: User)
    requires term != ""
    requires u in allUsers && Matches(currentUserId, term, u)
    requires |FilteredUsers(allUsers, currentUserId, term)| < MaxSuggestions
    ensures u in FilteredUsers(allUsers, currentUserId, term)
  {
    var all := Seqs.Filter(allUsers, MatchFilter(currentUserId, term));
    assert u in all;
    assert Seqs.Take(all, MaxSuggestions) == all;
  }

  lemma TakeOfLonger<T>(xs: seq<T>, ys: seq<T>, n: nat)
    requires |xs| >= n
    ensures Seqs.Take(xs + ys, n) == Seqs.Take(xs, n)
  {
  }

  /** The search as a loop that stops at the fifth match. */
  method SearchUsers(allUsers: seq<User>, currentUserId: string, term: string) returns (r: seq<User>)
    ensures r == FilteredUsers(allUsers, currentUserId, term)
  {
    r := [];
    if term == "" { return; }
    var p := MatchFilter(currentUserId, term);
    var i := 0;
    while i < |allUsers| && |r| < MaxSuggestions
      invariant 0 <= i <= |allUsers|
      invariant r == Seqs.Filter(allUsers[..i], p)
      invariant |r| <= MaxSuggestions
    {
      FilterStep(allUsers, i, p);
      if p(allUsers[i]) {
        r := r + [allUsers[i]];
      }
      i := i + 1;
    }
    FilterSplit(allUsers, i, p);
    if |r| == MaxSuggestions {
      TakeOfLonger(r, Seqs.Filter(allUsers[i..], p), MaxSuggestions);
    } else {
      assert allUsers[..i] == allUsers;
    }
  }

  /** Filtering one more element of a prefix. */
  lemma FilterStep<T>(xs: seq<T>, i: nat, p: T -> bool)
    requires i < |xs|
    ensures Seqs.Filter(xs[..i + 1], p) == Seqs.Filter(xs[..i], p) + (if p(xs[i]) then [xs[i]] else [])
  {
    Seqs.FilterAppend(xs[..i], [xs[i]], p);
    assert xs[..i + 1] == xs[..i] + [xs[i]];
  }

  /** Filtering a sequence is filtering its two halves. */
  lemma FilterSplit<T>(xs: seq<T>, i: nat, p: T -> bool)
    requires i <= |xs|
    ensures Seqs.Filter(xs, p) == Seqs.Filter(xs[..i], p) + Seqs.Filter(xs[i..], p)
  {
    assert xs == xs[..i] + xs[i..];
    Seqs.FilterAppend(xs[..i], xs[i..], p);
  }
}

/** The users side column (src/components/UsersColumn.jsx): the search over the
    loaded users. */
module UsersColumn {
  import opened Wrappers
  import opened Domain
  import opened Text
  import opened Seqs

  /** The search test for an already lower-cased term: a name that includes it,
      or an email that does, each after lower-casing. A missing field never
      matches. */
  function UserMatches(needle: string): User -> bool {
    (u: User) =>
      (u.name.Some? && Contains(Lower(u.name.value), needle))
      || (u.email.Some? && Contains(Lower(u.email.value), needle))
  }

  /** A user with a name or an email. */
  predicate HasNameOrEmail(u: User) {
    u.name.Some? || u.email.Some?
  }

  /** `filteredUsers`: the users the search term selects, in the store's
      order. */
  function FilteredUsers(users: seq<User>, term: string): (r: seq<User>)
    ensures IsSubsequence(r, users)
    ensures forall u :: u in r <==> (u in users &&
      ((u.name.Some? && Contains(Lower(u.name.value), Lower(term)))
       || (u.email.Some? && Contains(Lower(u.email.value), Lower(term)))))
    ensures forall u ::
              multiset(r)[u] == if (|| (u.name.Some? && Contains(Lower(u.name.value), Lower(term)))
                                    || (u.email.Some? && Contains(Lower(u.email.value), Lower(term))))
                                then multiset(users)[u] else 0
  {
    Filter(UserMatches(Lower(term)), users)
  }

  /** An empty search shows exactly the users with a name or an email, in
      order; a user with neither is never shown. */
  lemma EmptyTermKeepsNamed(users: seq<User>)
    ensures FilteredUsers(users, "") == Filter(HasNameOrEmail, users)
  {
    forall u | u in users ensures UserMatches(Lower(""))(u) == HasNameOrEmail(u) {
      if u.name.Some? {
        ContainsEmpty(Lower(u.name.value));
      }
      if u.email.Some? {
        ContainsEmpty(Lower(u.email.value));
      }
    }
    FilterAgrees(UserMatches(Lower("")), HasNameOrEmail, users);
  }

  /** The search ignores the letter case of the term. */
  lemma CaseInsensitive(users: seq<User>, a: string, b: string)
    requires SameIgnoringCase(a, b)
    ensures FilteredUsers(users, a) == FilteredUsers(users, b)
  {
  }

  /** Typing the term in capitals finds the same users. */
  lemma UpperCaseTermFindsSame(users: seq<User>, term: string)
    ensures FilteredUsers(users, Upper(term)) == FilteredUsers(users, term)
  {
    UpperKeepsLetters(term);
    CaseInsensitive(users, Upper(term), term);
  }

  /** Narrowing the search never shows more: a term that contains another
      selects a subset of what the shorter one selects. */
  lemma LongerTermNarrows(users: seq<User>, short: string, long: string, u: User)
    requires Contains(Lower(long), Lower(short))
    requires u in FilteredUsers(users, long)
    ensures u in FilteredUsers(users, short)
  {
    if u.name.Some? && Contains(Lower(u.name.value), Lower(long)) {
      ContainsTransitive(Lower(u.name.value), Lower(long), Lower(short));
    } else {
      ContainsTransitive(Lower(u.email.value), Lower(long), Lower(short));
    }
  }
}

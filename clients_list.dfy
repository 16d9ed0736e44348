/**
 * The search of the clients list screen. The screen reads `prenom` and
 * `nom` on the client objects it receives (the fields the seeded clients
 * carry), so it works on that view of a client.
 */
module ClientsList {
  import opened Text
  import opened Store

  /** What the search reads of a client. */
  datatype ClientView = ClientView(id: string, prenom: string, nom: string)

  /** `"prenom nom"`. */
  function FullName(c: ClientView): string
  {
    c.prenom + " " + c.nom
  }

  /**
   * The filter callback: the lower-cased query, not trimmed, occurs in the
   * lower-cased first name, last name or full name.
   */
  predicate Matches(c: ClientView, query: string)
  {
    var q := Lower(query);
    Contains(Lower(c.prenom), q) || Contains(Lower(c.nom), q) || Contains(Lower(FullName(c)), q)
  }

  function MatchesQuery(query: string): (p: ClientView -> bool)
    ensures forall c :: p(c) <==> Matches(c, query)
  {
    (c: ClientView) => Matches(c, query)
  }

  /** `filteredClients`. */
  function FilterClients(all: seq<ClientView>, query: string): (r: seq<ClientView>)
    ensures IsBlank(query) ==> r == all
    ensures !IsBlank(query) ==> forall c :: c in r <==> c in all && Matches(c, query)
    ensures SubsequenceOf(r, all)
  {
    if IsBlank(query) then
      SubsequenceOfSelf(all);
      all
    else
      FilterSubsequence(all, MatchesQuery(query));
      Filter(all, MatchesQuery(query))
  }

  lemma {:induction false} SubsequenceOfSelf<T>(xs: seq<T>)
    ensures SubsequenceOf(xs, xs)
  {
    if xs != [] {
      SubsequenceOfSelf(xs[1..]);
    }
  }

  /** Every string contains itself. */
  lemma ContainsSelf(s: string)
    ensures Contains(s, s)
  {
    assert IsPrefixAt(s, s, 0);
  }

  /** Typing a client's full name finds that client. */
  lemma FullNameFindsClient(all: seq<ClientView>, c: ClientView)
    requires c in all && !IsBlank(FullName(c))
    ensures c in FilterClients(all, FullName(c))
  {
    ContainsSelf(Lower(FullName(c)));
  }

  /** Spaces around the query are searched for, not ignored: a padded name can miss its client. */
  lemma QueryNotTrimmed()
    ensures FilterClients([ClientView("client-1", "Jean", "Dupont")], " Jean") == []
  {
    var c := ClientView("client-1", "Jean", "Dupont");
    assert FullName(c) == "Jean Dupont";
    PaddedQueryNotBlank();
    FirstNameMiss();
    LastNameMiss();
    FullNameMiss();
    assert !Matches(c, " Jean");
  }

  lemma PaddedQueryNotBlank()
    ensures !IsBlank(" Jean")
  {
    assert !IsSpace(" Jean"[1]);
    NotBlank(" Jean", 1);
  }

  /** A string with a character that is not white space is not blank. */
  lemma NotBlank(s: string, i: nat)
    requires i < |s| && !IsSpace(s[i])
    ensures !IsBlank(s)
  {
    BlankIffAllSpace(s);
  }

  lemma PaddedQueryLower()
    ensures Lower(" Jean") == " jean"
  {
    assert LowerChar('J') == 'j';
  }

  /** A one-input helper of `QueryNotTrimmed`: the padded query is not in the first name. */
  lemma FirstNameMiss()
    ensures !Contains(Lower("Jean"), Lower(" Jean"))
  {
    PaddedQueryLower();
    assert Lower("Jean") == "jean" by { assert LowerChar('J') == 'j'; }
    NoSpaceNoMatch("jean", " jean");
  }

  /** A one-input helper of `QueryNotTrimmed`: the padded query is not in the last name. */
  lemma LastNameMiss()
    ensures !Contains(Lower("Dupont"), Lower(" Jean"))
  {
    PaddedQueryLower();
    assert Lower("Dupont") == "dupont" by { assert LowerChar('D') == 'd'; }
    NoSpaceNoMatch("dupont", " jean");
  }

  /** A needle that starts with a space cannot occur in a haystack without one. */
  lemma NoSpaceNoMatch(h: string, q: string)
    requires |q| >= 1 && q[0] == ' ' && forall k :: 0 <= k < |h| ==> h[k] != ' '
    ensures !Contains(h, q)
  {
    forall i | 0 <= i <= |h| - |q|
      ensures !IsPrefixAt(h, q, i)
    {
      assert h[i..i + |q|][0] == h[i];
    }
  }

  /**
   * A one-input helper of `QueryNotTrimmed`: the one space of "jean dupont"
   * is followed by a `d`, so " jean" is not in it.
   */
  lemma FullNameMiss()
    ensures !Contains(Lower("Jean Dupont"), Lower(" Jean"))
  {
    PaddedQueryLower();
    assert Lower("Jean Dupont") == "jean dupont" by { assert LowerChar('J') == 'j' && LowerChar('D') == 'd'; }
    var h, q := "jean dupont", " jean";
    forall i | 0 <= i <= |h| - |q|
      ensures !IsPrefixAt(h, q, i)
    {
      assert h[i..i + |q|][0] == h[i] && h[i..i + |q|][1] == h[i + 1];
    }
  }
}

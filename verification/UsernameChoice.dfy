/** When a new username is found, and which. */
module UsernameChoice {
  import opened Domain
  import opened Tables
  import O = Operations
  import Usernames

  /** The candidate of draw k. */
  function NameOf(email: string, draws: seq<O.Draw>, k: nat): string
    requires k < |draws| && draws[k].digits.Some?
  {
    Usernames.Candidate(Usernames.EmailPrefix(email), draws[k].digits.value)
  }

  /** Draw k gives a free name, and every draw before it a taken one. */
  ghost predicate FirstFree(db: Store, email: string, draws: seq<O.Draw>, tries: nat, k: nat) {
    && k < tries && k < |draws|
    && (forall j :: 0 <= j <= k ==> draws[j].digits.Some? && !draws[j].lookupFails)
    && (forall j :: 0 <= j < k ==> UsernameTaken(db, NameOf(email, draws, j)))
    && !UsernameTaken(db, NameOf(email, draws, k))
  }

  lemma {:induction false} PickNameFinds(db: Store, email: string, draws: seq<O.Draw>, tries: nat, k: nat)
    requires |Usernames.EmailPrefix(email)| + 7 <= Usernames.MAX_USERNAME && FirstFree(db, email, draws, tries, k)
    ensures O.PickName(db, email, draws, tries) == Some(NameOf(email, draws, k))
  {
    if k > 0 {
      assert UsernameTaken(db, NameOf(email, draws, 0));
      assert forall j {:trigger draws[1..][j]} :: 0 <= j < k ==>
             NameOf(email, draws[1..], j) == NameOf(email, draws, j + 1);
      PickNameFinds(db, email, draws[1..], tries - 1, k - 1);
    }
  }

  lemma {:induction false} PickedIsFirstFree(db: Store, email: string, draws: seq<O.Draw>, tries: nat) returns (k: nat)
    requires O.PickName(db, email, draws, tries).Some?
    ensures |Usernames.EmailPrefix(email)| + 7 <= Usernames.MAX_USERNAME && FirstFree(db, email, draws, tries, k)
  {
    k := 0;
    if UsernameTaken(db, NameOf(email, draws, 0)) {
      var i := PickedIsFirstFree(db, email, draws[1..], tries - 1);
      k := i + 1;
      assert forall j {:trigger draws[j]} :: 1 <= j <= k ==> draws[j] == draws[1..][j - 1];
      assert forall j :: 0 < j < k ==> NameOf(email, draws, j) == NameOf(email, draws[1..], j - 1);
    }
  }

  /** Draw k, one of the first ten, makes a username that nobody holds. */
  ghost predicate IsFree(db: Store, email: string, draws: seq<O.Draw>, k: nat)
    requires |draws| >= Usernames.MAX_TRIES
    requires forall j :: 0 <= j < Usernames.MAX_TRIES ==> draws[j].digits.Some?
  {
    k < Usernames.MAX_TRIES && !UsernameTaken(db, NameOf(email, draws, k))
  }

  /** With a working store and random source a username is found exactly when the prefix has at most
      93 bytes and one of the first ten draws is free; it is then that of the first such draw, has
      at most 100 bytes, and nobody holds it. */
  lemma UsernameFound(db: Store, email: string, draws: seq<O.Draw>)
    requires |draws| >= Usernames.MAX_TRIES
    requires forall j :: 0 <= j < Usernames.MAX_TRIES ==> draws[j].digits.Some? && !draws[j].lookupFails
    ensures var picked := O.PickName(db, email, draws, Usernames.MAX_TRIES);
            && (picked.Some? <==> |Usernames.EmailPrefix(email)| <= 93
                                  && exists k: nat :: IsFree(db, email, draws, k))
            && (picked.Some? ==> !UsernameTaken(db, picked.value) && |picked.value| <= Usernames.MAX_USERNAME
                                 && exists k: nat :: FirstFree(db, email, draws, Usernames.MAX_TRIES, k)
                                                     && picked.value == NameOf(email, draws, k))
  {
    var picked := O.PickName(db, email, draws, Usernames.MAX_TRIES);
    if picked.Some? {
      var k := PickedIsFirstFree(db, email, draws, Usernames.MAX_TRIES);
      PickNameFinds(db, email, draws, Usernames.MAX_TRIES, k);
      assert IsFree(db, email, draws, k);
    }
    if |Usernames.EmailPrefix(email)| <= 93 && exists k: nat :: IsFree(db, email, draws, k) {
      var k: nat :| IsFree(db, email, draws, k);
      var first := FirstFreeBefore(db, email, draws, k);
      PickNameFinds(db, email, draws, Usernames.MAX_TRIES, first);
    }
  }

  lemma {:induction false} FirstFreeBefore(db: Store, email: string, draws: seq<O.Draw>, k: nat) returns (first: nat)
    requires k < Usernames.MAX_TRIES <= |draws|
    requires forall j :: 0 <= j < Usernames.MAX_TRIES ==> draws[j].digits.Some? && !draws[j].lookupFails
    requires !UsernameTaken(db, NameOf(email, draws, k))
    ensures FirstFree(db, email, draws, Usernames.MAX_TRIES, first)
  {
    first := k;
    if exists j: nat :: j < k && !UsernameTaken(db, NameOf(email, draws, j)) {
      var j: nat :| j < k && !UsernameTaken(db, NameOf(email, draws, j));
      first := FirstFreeBefore(db, email, draws, j);
    }
  }

  /** Two users of the tables that share a generated name share its prefix: different prefixes never
      collide. */
  lemma PrefixesKeepApart(a: string, b: string, draws: seq<O.Draw>, more: seq<O.Draw>, j: nat, k: nat)
    requires j < |draws| && draws[j].digits.Some? && k < |more| && more[k].digits.Some?
    requires Usernames.EmailPrefix(a) != Usernames.EmailPrefix(b)
    ensures NameOf(a, draws, j) != NameOf(b, more, k)
  {
    if NameOf(a, draws, j) == NameOf(b, more, k) {
      Usernames.CandidateSplits(Usernames.EmailPrefix(a), draws[j].digits.value, Usernames.EmailPrefix(b),
                                more[k].digits.value);
    }
  }
}

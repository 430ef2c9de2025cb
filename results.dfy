/** Outcomes of the overview pipeline. Every exception the Ruby core raises becomes a
    tagged error carrying the identifier its message names. */
module Results {

  datatype Option<+T> = None | Some(value: T)

  datatype Error =
    | FetchError(url: string)                   // URI.open failed: network error or HTTP error status
    | CubeCobraCardNotFound(name: string)       // CubeCobra::CardNotFoundError
    | ScryfallCardNotFound(search: string)      // Scryfall::CardNotFoundError
    | TooManyCards(search: string, count: nat)  // Scryfall::TooManyCardsError
    | RepeatedCard(card: string, count: nat)    // OverviewBuilder::RepeatedCardError

  datatype Result<+T> = Success(value: T) | Failure(error: Error)

  /** The result of a check that produces no value (`validate!`). */
  datatype Outcome = Pass | Fail(error: Error)

  /** Takes the results in order and stops at the first failure: a Ruby `map` whose
      block may raise, where the first exception aborts the rest. */
  function Collect<T>(rs: seq<Result<T>>): (r: Result<seq<T>>)
    ensures r.Success? <==> forall i :: 0 <= i < |rs| ==> rs[i].Success?
    ensures r.Success? ==> |r.value| == |rs| && forall i :: 0 <= i < |rs| ==> rs[i] == Success(r.value[i])
  {
    if rs == [] then Success([])
    else if rs[0].Failure? then Failure(rs[0].error)
    else match Collect(rs[1..])
      case Failure(e) => Failure(e)
      case Success(vs) => Success([rs[0].value] + vs)
  }

  /** A failed collection reports the error of the first failing result. */
  lemma {:induction false} CollectFirstFailure<T>(rs: seq<Result<T>>)
    requires Collect(rs).Failure?
    ensures exists k :: 0 <= k < |rs| && rs[k] == Failure(Collect(rs).error)
                        && forall j :: 0 <= j < k ==> rs[j].Success?
  {
    if rs[0].Failure? {
      assert rs[0] == Failure(Collect(rs).error);
    } else {
      CollectFirstFailure(rs[1..]);
      var k :| 0 <= k < |rs[1..]| && rs[1..][k] == Failure(Collect(rs[1..]).error)
               && forall j :: 0 <= j < k ==> rs[1..][j].Success?;
      assert rs[k + 1] == rs[1..][k];
      forall j | 0 <= j < k + 1 ensures rs[j].Success? {
        if j > 0 { assert rs[j] == rs[1..][j - 1]; }
      }
    }
  }

  /** Appending one more result to a successful prefix: either the prefix grows by its
      value, or the whole collection fails with its error. */
  lemma {:induction false} CollectSnoc<T>(rs: seq<Result<T>>, x: Result<T>)
    requires Collect(rs).Success?
    ensures Collect(rs + [x]) == if x.Success? then Success(Collect(rs).value + [x.value]) else Failure(x.error)
  {
    if rs == [] {
      assert rs + [x] == [x] && [x][1..] == [];
      assert Collect(rs).value == [];
      if x.Success? { assert [x.value] + [] == [] + [x.value]; }
    } else {
      assert (rs + [x])[0] == rs[0] && (rs + [x])[1..] == rs[1..] + [x];
      CollectSnoc(rs[1..], x);
      if x.Success? {
        var vs := Collect(rs[1..]).value;
        assert [rs[0].value] + (vs + [x.value]) == ([rs[0].value] + vs) + [x.value];
      }
    }
  }

  /** Once a prefix has failed, the failure stands whatever follows. */
  lemma {:induction false} CollectFailedPrefix<T>(rs: seq<Result<T>>, k: nat)
    requires k <= |rs| && Collect(rs[..k]).Failure?
    ensures Collect(rs) == Collect(rs[..k])
  {
    if rs[0].Failure? {
    } else {
      assert rs[..k][1..] == rs[1..][..k - 1];
      CollectFailedPrefix(rs[1..], k - 1);
    }
  }

  /** A traversal one item further: the prefix grows by the item's value, or the item's
      failure is the failure of the whole collection. */
  lemma CollectStep<T>(rs: seq<Result<T>>, k: nat)
    requires k < |rs| && Collect(rs[..k]).Success?
    ensures rs[k].Success? ==> Collect(rs[..k + 1]) == Success(Collect(rs[..k]).value + [rs[k].value])
    ensures rs[k].Failure? ==> Collect(rs) == Failure(rs[k].error)
  {
    assert rs[..k + 1] == rs[..k] + [rs[k]];
    CollectSnoc(rs[..k], rs[k]);
    if rs[k].Failure? {
      CollectFailedPrefix(rs, k + 1);
    }
  }

  lemma CollectSingle<T>(x: Result<T>)
    ensures Collect([x]) == if x.Success? then Success([x.value]) else Failure(x.error)
  {
    var none: seq<Result<T>> := [];
    assert Collect(none) == Success([]);
    CollectSnoc(none, x);
    assert none + [x] == [x];
    if x.Success? { assert Collect(none).value + [x.value] == [x.value]; }
  }

  /** How many results a traversal that stops at the first failure looks at: all of
      them, or those up to and including the first failure. */
  function Attempted<T>(rs: seq<Result<T>>): (n: nat)
    ensures n <= |rs|
    ensures rs != [] ==> n > 0
    ensures n < |rs| ==> Collect(rs).Failure?
  {
    if rs == [] then 0
    else if rs[0].Failure? then 1
    else 1 + Attempted(rs[1..])
  }

  /** After `k` successes, the traversal stops at result `k` if it fails, and after all of
      them if there is none. */
  lemma {:induction false} AttemptedAt<T>(rs: seq<Result<T>>, k: nat)
    requires k <= |rs| && Collect(rs[..k]).Success?
    requires k < |rs| ==> rs[k].Failure?
    ensures Attempted(rs) == if k < |rs| then k + 1 else k
  {
    if rs != [] && k > 0 {
      assert rs[..k][0] == rs[0];
      assert rs[1..][..k - 1] == rs[..k][1..];
      AttemptedAt(rs[1..], k - 1);
    }
  }

  /** What a traversal that stops at the first failure touches: the sets `us[i]` of the
      items up to and including the first failing one. */
  function Reached<T, U>(rs: seq<Result<T>>, us: seq<set<U>>): (r: set<U>)
    requires |rs| == |us|
    ensures rs != [] ==> us[0] <= r
    ensures Collect(rs).Success? ==> forall i :: 0 <= i < |us| ==> us[i] <= r
  {
    if rs == [] then {}
    else us[0] + (if rs[0].Success? then Reached(rs[1..], us[1..]) else {})
  }

  /** One more item after a run of successes adds exactly what that item touches. */
  lemma {:induction false} ReachedSnoc<T, U>(rs: seq<Result<T>>, us: seq<set<U>>, x: Result<T>, u: set<U>)
    requires |rs| == |us| && Collect(rs).Success?
    ensures Reached(rs + [x], us + [u]) == Reached(rs, us) + u
  {
    if rs == [] {
      assert rs + [x] == [x] && us + [u] == [u];
    } else {
      assert (rs + [x])[1..] == rs[1..] + [x] && (us + [u])[1..] == us[1..] + [u];
      assert Collect(rs[1..]).Success?;
      ReachedSnoc(rs[1..], us[1..], x, u);
    }
  }

  /** Nothing after a failing item is touched. */
  lemma {:induction false} ReachedStopsAtFailure<T, U>(rs: seq<Result<T>>, us: seq<set<U>>, k: nat)
    requires |rs| == |us| && k < |rs| && rs[k].Failure?
    ensures Reached(rs, us) == Reached(rs[..k + 1], us[..k + 1])
  {
    if rs[0].Success? {
      assert rs[..k + 1][1..] == rs[1..][..k] && us[..k + 1][1..] == us[1..][..k];
      ReachedStopsAtFailure(rs[1..], us[1..], k - 1);
    } else {
      assert rs[..k + 1][0] == rs[0] && us[..k + 1][0] == us[0];
    }
  }
}

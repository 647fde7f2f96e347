/** The option-chain endpoint's selection: the first ten expirations in sorted
    order, and at most twenty strikes in sorted order, restricted to those within
    $50 of the underlying when a price is known. Expirations are YYYYMMDD dates
    held as integers (their sorted order is the order of the date strings);
    strikes are integer cents. */
module OptionChain {
  import opened Base
  import Worker

  const MaxExpirations: int := 10
  const MaxStrikes: int := 20
  /** Largest distance, in dollars, of a strike shown next to a known price. */
  const NearMoney: real := 50.0

  predicate Sorted(s: seq<int>) {
    forall i, j :: 0 <= i < j < |s| ==> s[i] <= s[j]
  }

  function Insert(x: int, s: seq<int>): (r: seq<int>)
    requires Sorted(s)
    ensures Sorted(r)
    ensures multiset(r) == multiset(s) + multiset{x}
    decreases |s|
  {
    if s == [] || x <= s[0] then [x] + s
    else
      var rest := Insert(x, s[1..]);
      assert s == [s[0]] + s[1..];
      assert forall k :: 0 <= k < |rest| ==> s[0] <= rest[k] by {
        forall k | 0 <= k < |rest| ensures s[0] <= rest[k] {
          assert rest[k] in multiset(rest);
        }
      }
      [s[0]] + rest
  }

  /** `sorted(...)`: an ordered permutation of its input. */
  function Sort(s: seq<int>): (r: seq<int>)
    ensures Sorted(r)
    ensures multiset(r) == multiset(s)
    decreases |s|
  {
    if s == [] then []
    else
      assert s == [s[0]] + s[1..];
      Insert(s[0], Sort(s[1..]))
  }

  /** `s[:n]` */
  function Take(s: seq<int>, n: nat): seq<int> {
    if |s| <= n then s else s[..n]
  }

  /** Whether a strike (in cents) lies within $50 of the underlying price. */
  predicate Near(strike: int, spy: real) {
    AbsReal(strike as real / 100.0 - spy) <= NearMoney
  }

  /** The strikes within $50 of `spy`, in their original order: each keeps its
      multiplicity when near, and is dropped otherwise. */
  function NearStrikes(s: seq<int>, spy: real): (r: seq<int>)
    ensures forall k :: 0 <= k < |r| ==> Near(r[k], spy)
    ensures forall x :: multiset(r)[x] == if Near(x, spy) then multiset(s)[x] else 0
    decreases |s|
  {
    if s == [] then []
    else
      assert s == [s[0]] + s[1..];
      var rest := NearStrikes(s[1..], spy);
      if Near(s[0], spy) then [s[0]] + rest else rest
  }

  function Expirations(all: seq<int>): seq<int> {
    Take(Sort(all), MaxExpirations)
  }

  function Strikes(all: seq<int>, spy: Option<real>): seq<int> {
    if PriceKnown(spy) then Take(Sort(NearStrikes(Sort(all), spy.value)), MaxStrikes)
    else Take(Sort(all), MaxStrikes)
  }

  // ---------------------------------------------------------------------------

  /** The first n of a sorted sequence are sorted, are taken from it, and are
      no larger than anything left behind. */
  lemma TakeSortedIsSmallest(s: seq<int>, n: nat)
    requires Sorted(s)
    ensures var r := Take(s, n);
      && |r| == Min(|s|, n)
      && Sorted(r)
      && multiset(r) <= multiset(s)
      && (forall x, y :: x in multiset(s) - multiset(r) && y in r ==> y <= x)
  {
    var r := Take(s, n);
    if |s| > n {
      assert s == s[..n] + s[n..];
      assert multiset(s) == multiset(s[..n]) + multiset(s[n..]);
      forall x, y | x in multiset(s) - multiset(r) && y in r
        ensures y <= x
      {
        assert x in multiset(s[n..]);
        var j :| 0 <= j < |s[n..]| && s[n..][j] == x;
        var i :| 0 <= i < |r| && r[i] == y;
      }
    }
  }

  /** The expirations shown: at most ten, in order, all real, and the earliest
      ones: none left out precedes one shown. */
  lemma ExpirationsAreTheEarliest(all: seq<int>)
    ensures var r := Expirations(all);
      && |r| == Min(|all|, MaxExpirations)
      && Sorted(r)
      && multiset(r) <= multiset(all)
      && (forall x, y :: x in multiset(all) - multiset(r) && y in r ==> y <= x)
  {
    TakeSortedIsSmallest(Sort(all), MaxExpirations);
  }

  /** Filtering respects the multiset: lists holding the same strikes have
      the same near strikes, in the same numbers. */
  lemma NearStrikesOfPermutation(s: seq<int>, t: seq<int>, spy: real)
    requires multiset(s) == multiset(t)
    ensures multiset(NearStrikes(s, spy)) == multiset(NearStrikes(t, spy))
    ensures |NearStrikes(s, spy)| == |NearStrikes(t, spy)|
  {
    var a, b := NearStrikes(s, spy), NearStrikes(t, spy);
    forall x ensures multiset(a)[x] == multiset(b)[x] {
    }
    assert multiset(a) == multiset(b);
    assert |multiset(a)| == |a| && |multiset(b)| == |b|;
  }

  /** The strikes shown: at most twenty, in order, all real; with a known price
      every one is within $50 of it, all the near strikes are shown up to twenty,
      and they are the lowest such strikes; without one they are the lowest
      strikes overall. */
  lemma StrikesShown(all: seq<int>, spy: Option<real>)
    ensures var r := Strikes(all, spy);
      && |r| <= MaxStrikes
      && Sorted(r)
      && multiset(r) <= multiset(all)
      && (PriceKnown(spy) ==> |r| == Min(|NearStrikes(all, spy.value)|, MaxStrikes))
      && (PriceKnown(spy) ==> forall k :: 0 <= k < |r| ==> Near(r[k], spy.value))
      && (!PriceKnown(spy) ==> |r| == Min(|all|, MaxStrikes))
      && (forall x, y :: x in multiset(all) - multiset(r) && y in r && (PriceKnown(spy) ==> Near(x, spy.value)) ==> y <= x)
  {
    var r := Strikes(all, spy);
    if PriceKnown(spy) {
      var filtered := NearStrikes(Sort(all), spy.value);
      var near := Sort(filtered);
      NearStrikesOfPermutation(Sort(all), all, spy.value);
      assert |multiset(near)| == |near| && |multiset(filtered)| == |filtered|;
      TakeSortedIsSmallest(near, MaxStrikes);
      assert multiset(near) <= multiset(all);
      forall k | 0 <= k < |r| ensures Near(r[k], spy.value) {
        assert r[k] in multiset(near);
        var j :| 0 <= j < |near| && near[j] == r[k];
        assert near[j] in multiset(filtered);
      }
      forall x, y | x in multiset(all) - multiset(r) && y in r && Near(x, spy.value)
        ensures y <= x
      {
        assert multiset(near)[x] == multiset(all)[x];
        assert x in multiset(near) - multiset(r);
      }
    } else {
      TakeSortedIsSmallest(Sort(all), MaxStrikes);
    }
  }

  /** What the brokerage returns for the chain request. */
  datatype Chain = Chain(exchange: string, expirations: seq<int>, strikes: seq<int>)

  /** Qualifying the SPY stock raised; the parameters request raised; or it
      returned these chains. */
  datatype ChainAnswer =
    | StockRaised(message: string)
    | ChainRaised(message: string)
    | Chains(chains: seq<Chain>)

  datatype ChainReply =
    | ChainOk(expirations: seq<int>, strikes: seq<int>, exchange: string)
    | ChainError(code: int, message: string)

  const NoChainsMessage: string := "No option chains found"

  /** The brokerage calls the endpoint makes on the session when connected: it
      qualifies the stock, then asks for the option parameters unless that raised. */
  function ChainCalls(session: Worker.Session, answer: ChainAnswer): seq<Worker.BrokerCall> {
    if answer.StockRaised? then [Worker.CallQualifyStock(session)]
    else [Worker.CallQualifyStock(session), Worker.CallOptionParams(session)]
  }

  /** The endpoint: refused when not connected, 500 with the message when a
      brokerage call raised, not found when the brokerage has no chain, else the
      selection from the first chain. */
  function ChainReplyFor(connected: bool, spy: Option<real>, answer: ChainAnswer): (r: ChainReply)
    ensures !connected ==> r == ChainError(400, Worker.NotConnectedMessage)
    ensures connected && !answer.Chains? ==> r == ChainError(500, answer.message)
    ensures connected && answer == Chains([]) ==> r == ChainError(404, NoChainsMessage)
    ensures r.ChainOk? <==> connected && answer.Chains? && answer.chains != []
    ensures r.ChainOk? ==>
              && answer.Chains? && answer.chains != []
              && r.expirations == Expirations(answer.chains[0].expirations)
              && r.strikes == Strikes(answer.chains[0].strikes, spy)
              && r.exchange == answer.chains[0].exchange
    ensures r.ChainOk? ==> |r.expirations| <= MaxExpirations && |r.strikes| <= MaxStrikes
                           && Sorted(r.expirations) && Sorted(r.strikes)
  {
    if !connected then ChainError(400, Worker.NotConnectedMessage)
    else match answer
      case StockRaised(m) => ChainError(500, m)
      case ChainRaised(m) => ChainError(500, m)
      case Chains(chains) =>
        if chains == [] then ChainError(404, NoChainsMessage)
        else
          var chain := chains[0];
          ExpirationsAreTheEarliest(chain.expirations);
          StrikesShown(chain.strikes, spy);
          ChainOk(Expirations(chain.expirations), Strikes(chain.strikes, spy), chain.exchange)
  }
}

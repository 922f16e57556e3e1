/** The simulated gateway (app/integrations/simulated_gateway.py). The random source is an arbitrary
    stream of draws; a payment's first roll is remembered and every later answer repeats it. */
module Gateway {
  import opened Enums

  type Stream = nat -> real

  datatype GatewayState = GatewayState(rolls: map<string, bool>, draws: nat)

  const FRESH := GatewayState(map[], 0)

  function DefaultProbability(d: Option<DiagnosisClass>): real {
    match d
    case Some(InsufficientFunds) => 0.55
    case Some(NetworkInfra) => 0.80
    case Some(BankDowntime) => 0.75
    case Some(CustomerAuthRequired) => 0.45
    case _ => 0.0
  }

  /** Will this payment be paid? */
  function Latent(rng: Stream, g: GatewayState, key: string, probability: real): bool {
    if key in g.rolls then g.rolls[key] else rng(g.draws) < probability
  }

  /** The memo after the question has been asked. */
  function Rolled(rng: Stream, g: GatewayState, key: string, probability: real): GatewayState {
    if key in g.rolls then g
    else GatewayState(g.rolls[key := rng(g.draws) < probability], g.draws + 1)
  }

  class SimulatedGateway {
    const rng: Stream
    var rolls: map<string, bool>
    var draws: nat

    function State(): GatewayState
      reads this
    {
      GatewayState(rolls, draws)
    }

    constructor (rng: Stream)
      ensures this.rng == rng && State() == FRESH
    {
      this.rng := rng;
      rolls, draws := map[], 0;
    }

    method Ask(key: string, probability: real) returns (willPay: bool)
      modifies this
      ensures willPay == Latent(rng, old(State()), key, probability)
      ensures State() == Rolled(rng, old(State()), key, probability)
    {
      if key !in rolls {
        var roll := rng(draws);
        rolls, draws := rolls[key := roll < probability], draws + 1;
      }
      willPay := rolls[key];
    }
  }

  /** A question about some payment, as the executors ask it. */
  datatype Question = Question(key: string, probability: real)

  function AskAll(rng: Stream, g: GatewayState, qs: seq<Question>): GatewayState {
    if |qs| == 0 then g
    else
      var before := AskAll(rng, g, qs[..|qs| - 1]);
      Rolled(rng, before, qs[|qs| - 1].key, qs[|qs| - 1].probability)
  }

  /** The answer the gateway gives to question `i` of a run. */
  function Answer(rng: Stream, g: GatewayState, qs: seq<Question>, i: nat): bool
    requires i < |qs|
  {
    Latent(rng, AskAll(rng, g, qs[..i]), qs[i].key, qs[i].probability)
  }

  ghost function Keys(qs: seq<Question>): set<string> { set q | q in qs :: q.key }

  /** The memo never forgets or changes a roll, and holds exactly the payments asked about. */
  lemma {:induction false} MemoKeeps(rng: Stream, g: GatewayState, qs: seq<Question>)
    ensures AskAll(rng, g, qs).rolls.Keys == g.rolls.Keys + Keys(qs)
    ensures forall k | k in g.rolls :: AskAll(rng, g, qs).rolls[k] == g.rolls[k]
  {
    if |qs| > 0 {
      var before, last := qs[..|qs| - 1], qs[|qs| - 1];
      MemoKeeps(rng, g, before);
      assert qs == before + [last];
      assert Keys(qs) == Keys(before) + {last.key};
    }
  }

  lemma OneMoreKey(known: set<string>, asked: set<string>, key: string)
    ensures |(asked + {key}) - known| == |asked - known| + if key in known + asked then 0 else 1
  {
    var unseen := asked - known;
    if key in known + asked {
      assert (asked + {key}) - known == unseen;
    } else {
      assert (asked + {key}) - known == unseen + {key};
    }
  }

  /** There is exactly one draw per distinct payment not rolled before. */
  lemma {:induction false} OneDrawPerPayment(rng: Stream, g: GatewayState, qs: seq<Question>)
    ensures AskAll(rng, g, qs).draws == g.draws + |Keys(qs) - g.rolls.Keys|
  {
    if |qs| == 0 {
      assert Keys(qs) - g.rolls.Keys == {};
    } else {
      var before, last := qs[..|qs| - 1], qs[|qs| - 1];
      OneDrawPerPayment(rng, g, before);
      assert qs == before + [last];
      assert Keys(qs) == Keys(before) + {last.key};
      assert last.key in AskAll(rng, g, before).rolls <==> last.key in g.rolls.Keys + Keys(before) by {
        MemoKeeps(rng, g, before);
      }
      OneMoreKey(g.rolls.Keys, Keys(before), last.key);
    }
  }

  /** All answers about one payment equal the first, whatever probabilities they were asked with and
      whatever was asked about other payments in between. */
  lemma AnswersRepeatTheFirst(rng: Stream, g: GatewayState, qs: seq<Question>, i: nat, j: nat)
    requires i < j < |qs| && qs[i].key == qs[j].key
    ensures Answer(rng, g, qs, i) == Answer(rng, g, qs, j)
  {
    var asked := qs[..i + 1];
    assert asked[..i] == qs[..i];
    assert qs[..j] == asked + qs[i + 1..j];
    AskAllConcat(rng, g, asked, qs[i + 1..j]);
    MemoKeeps(rng, AskAll(rng, g, asked), qs[i + 1..j]);
    MemoKeeps(rng, g, asked);
  }

  lemma {:induction false} AskAllConcat(rng: Stream, g: GatewayState, a: seq<Question>, b: seq<Question>)
    ensures AskAll(rng, g, a + b) == AskAll(rng, AskAll(rng, g, a), b)
  {
    if |b| == 0 {
      assert a + b == a;
    } else {
      assert (a + b)[..|a + b| - 1] == a + b[..|b| - 1];
      AskAllConcat(rng, g, a, b[..|b| - 1]);
    }
  }

  /** Draws are at least 0 and below 1, as `random()` gives them. */
  ghost predicate UnitDraws(rng: Stream) { forall n: nat :: 0.0 <= rng(n) < 1.0 }

  /** A payment not rolled before is never paid at probability 0 and always at 1; and whoever is paid at some
      probability is paid at any higher one. */
  lemma ProbabilityDecides(rng: Stream, g: GatewayState, key: string, p: real, q: real)
    requires UnitDraws(rng) && key !in g.rolls
    ensures !Latent(rng, g, key, 0.0) && Latent(rng, g, key, 1.0)
    ensures p <= q && Latent(rng, g, key, p) ==> Latent(rng, g, key, q)
    ensures Latent(rng, g, key, p) <==> Rolled(rng, g, key, p).rolls[key]
  {
    assert 0.0 <= rng(g.draws) < 1.0;
  }
}

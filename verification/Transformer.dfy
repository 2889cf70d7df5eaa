/** The network as the engine sees it: a stack of causal attention layers over exact reals.

    The arithmetic of one layer is left abstract (any deterministic functions will do); what
    is kept is which values each computation reads. Layer `l` turns a token's hidden vector into
    one K/V entry, and the next hidden vector is a function of that vector and of the K/V entries
    the attention mask admits, in key order. */
module Transformer {
  import opened Seqs

  type Token = int
  type Vec = seq<real>

  datatype KV = KV(k: Vec, v: Vec)

  /** A request's sampling parameters together with the state of its own random generator. */
  datatype Sampler = Sampler(temperature: real, topP: real, gen: int)

  datatype Network = Network(
    layers: nat,
    embed: (Token, int) -> Vec,
    project: (nat, Vec) -> KV,
    attend: (nat, Vec, seq<KV>) -> Vec,
    logits: Vec -> Vec,
    argmax: Vec -> Token,
    draw: (Sampler, Vec) -> (Token, Sampler))

  /** The hidden vector of position `p` on entry to layer `l`, computed with no cache at all. */
  ghost function Hidden(net: Network, t: seq<Token>, l: nat, p: nat): Vec
    requires p < |t|
    decreases l, 0, 0
  {
    if l == 0 then net.embed(t[p], p)
    else net.attend(l - 1, Hidden(net, t, l - 1, p), Entries(net, t, l - 1, p + 1))
  }

  ghost function Entry(net: Network, t: seq<Token>, l: nat, p: nat): KV
    requires p < |t|
    decreases l, 1, 0
  {
    net.project(l, Hidden(net, t, l, p))
  }

  /** The K/V entries of the first `n` positions at layer `l`. */
  ghost function Entries(net: Network, t: seq<Token>, l: nat, n: nat): (r: seq<KV>)
    requires n <= |t|
    ensures |r| == n
    ensures forall j :: 0 <= j < n ==> r[j] == Entry(net, t, l, j)
    decreases l, 2, n
  {
    if n == 0 then [] else Entries(net, t, l, n - 1) + [Entry(net, t, l, n - 1)]
  }

  /** The logits after reading all of `t`. */
  ghost function Logits(net: Network, t: seq<Token>): Vec
    requires t != []
  {
    net.logits(Hidden(net, t, net.layers, |t| - 1))
  }

  /** Causality: what is computed at a position does not depend on later tokens, so an entry
      cached while a sequence was shorter is still the right one after it has grown. */
  lemma {:induction false} Causal(net: Network, t: seq<Token>, u: seq<Token>, l: nat, p: nat)
    requires p < |t| && p < |u| && t[..p + 1] == u[..p + 1]
    ensures Hidden(net, t, l, p) == Hidden(net, u, l, p)
    ensures Entry(net, t, l, p) == Entry(net, u, l, p)
    decreases l, p
  {
    if l == 0 {
      assert t[p] == t[..p + 1][p] == u[p];
    } else {
      var m := l - 1;
      Causal(net, t, u, m, p);
      forall j | 0 <= j < p + 1 ensures Entry(net, t, m, j) == Entry(net, u, m, j) {
        assert t[..j + 1] == t[..p + 1][..j + 1];
        assert u[..j + 1] == u[..p + 1][..j + 1];
        Causal(net, t, u, m, j);
      }
      assert Entries(net, t, m, p + 1) == Entries(net, u, m, p + 1);
    }
  }

  /** What saying a token means for the request's own generator: without a sampler the token is the most
      probable one and there is no generator; with one, the token is drawn and the generator moves on. */
  ghost predicate Drawn(net: Network, smp: Option<Sampler>, lg: Vec, tok: Token, next: Option<Sampler>)
  {
    match smp
    case None => tok == net.argmax(lg) && next == None
    case Some(s) => next.Some? && (tok, next.value) == net.draw(s, lg)
  }

  /** The row of `pick_tokens`: argmax without a sampler, otherwise one draw from the row's own
      generator, which is the only generator that advances. */
  function Pick(net: Network, smp: Option<Sampler>, lg: Vec): (Token, Option<Sampler>)
  {
    match smp
    case None => (net.argmax(lg), None)
    case Some(s) => var (tok, s') := net.draw(s, lg); (tok, Some(s'))
  }
}

// x/gov/tally.go: counting the votes on a proposal. Validators vote with all tokens bonded to them,
// less the shares of delegators who vote themselves.

module Tally {
  import opened Bytes
  import opened Decimal
  import opened MapSum

  type Addr = Bytes

  datatype VoteOption = Empty | Yes | Abstain | No | NoWithVeto

  datatype Vote = Vote(voter: Addr, option: VoteOption)

  datatype Delegation = Delegation(validator: Addr, shares: Dec)

  // A bonded validator: its tokens and its delegator shares.
  datatype Validator = Validator(bonded: int, shares: Dec)

  datatype Info = Info(deductions: Dec, vote: VoteOption)

  // A delegator's own vote, as far as one validator is concerned.
  datatype Ballot = Ballot(shares: Dec, option: VoteOption)

  // The results map and totalVotingPower.
  datatype Count = Count(yes: Dec, abstain: Dec, no: Dec, veto: Dec, total: Dec)

  function Of(c: Count, o: VoteOption): Dec {
    match o case Empty => 0 case Yes => c.yes case Abstain => c.abstain case No => c.no case NoWithVeto => c.veto
  }

  // results[o] += x; totalVotingPower += x
  function Plus(c: Count, o: VoteOption, x: Dec): Count
    requires o != Empty
  {
    (match o case Yes => c.(yes := c.yes + x) case Abstain => c.(abstain := c.abstain + x)
             case No => c.(no := c.no + x) case NoWithVeto => c.(veto := c.veto + x)).(total := c.total + x)
  }

  predicate Adds(c: Count) {
    c.total == c.yes + c.abstain + c.no + c.veto
  }

  lemma PlusOf(c: Count, o: VoteOption, x: Dec, p: VoteOption)
    requires o != Empty
    ensures Of(Plus(c, o, x), p) == Of(c, p) + (if o == p then x else 0) && Adds(Plus(c, o, x)) == Adds(c)
  {}

  type Validators = vs: map<Addr, Validator> | forall a :: a in vs ==> vs[a].shares > 0

  type Delegations = map<Addr, seq<Delegation>>

  function Power(v: Validator, shares: Dec): Dec
    requires v.shares > 0
  {
    MulInt(Quo(shares, v.shares), v.bonded)
  }

  // ---------- What should be counted ----------

  function Delegated(ds: Delegations, voter: Addr): seq<Delegation> {
    if voter in ds then ds[voter] else []
  }

  // The ballots a list of delegations gives one validator.
  function BallotsIn(list: seq<Delegation>, a: Addr, option: VoteOption): seq<Ballot> {
    if list == [] then []
    else
      var d := list[|list| - 1];
      var rest := BallotsIn(list[..|list| - 1], a, option);
      if d.validator == a then rest + [Ballot(d.shares, option)] else rest
  }

  // A validator's own vote is not a ballot, whatever it has delegated.
  function VoterBallots(vals: Validators, ds: Delegations, v: Vote, a: Addr): seq<Ballot> {
    if v.voter in vals then [] else BallotsIn(Delegated(ds, v.voter), a, v.option)
  }

  function Ballots(vals: Validators, ds: Delegations, votes: seq<Vote>, a: Addr): seq<Ballot> {
    if votes == [] then []
    else Ballots(vals, ds, votes[..|votes| - 1], a) + VoterBallots(vals, ds, votes[|votes| - 1], a)
  }

  function OwnVote(votes: seq<Vote>, a: Addr): VoteOption {
    if votes == [] then Empty
    else if votes[|votes| - 1].voter == a then votes[|votes| - 1].option
    else OwnVote(votes[..|votes| - 1], a)
  }

  function SumShares(bs: seq<Ballot>): Dec {
    if bs == [] then 0 else SumShares(bs[..|bs| - 1]) + bs[|bs| - 1].shares
  }

  function BallotPower(v: Validator, bs: seq<Ballot>, o: VoteOption): Dec
    requires v.shares > 0
  {
    if bs == [] then 0
    else
      var b := bs[|bs| - 1];
      BallotPower(v, bs[..|bs| - 1], o) + if b.option == o then Power(v, b.shares) else 0
  }

  // What a validator adds to an option by its own vote.
  function OwnPower(v: Validator, deductions: Dec, vote: VoteOption, o: VoteOption): Dec
    requires v.shares > 0
  {
    if vote == o != Empty then Power(v, v.shares - deductions) else 0
  }

  function CountedAt(vals: Validators, ds: Delegations, votes: seq<Vote>, a: Addr, o: VoteOption): Dec
    requires a in vals
  {
    BallotPower(vals[a], Ballots(vals, ds, votes, a), o) +
    OwnPower(vals[a], SumShares(Ballots(vals, ds, votes, a)), OwnVote(votes, a), o)
  }

  ghost function CountedBy(vals: Validators, ds: Delegations, votes: seq<Vote>, o: VoteOption): map<Addr, int> {
    map a | a in vals :: CountedAt(vals, ds, votes, a, o)
  }

  ghost function Counted(vals: Validators, ds: Delegations, votes: seq<Vote>, o: VoteOption): Dec {
    Sum(CountedBy(vals, ds, votes, o))
  }

  ghost predicate IsTally(vals: Validators, ds: Delegations, votes: seq<Vote>, c: Count) {
    Adds(c) && forall o :: o != Empty ==> CountsFor(vals, ds, votes, c, o)
  }

  ghost predicate CountsFor(vals: Validators, ds: Delegations, votes: seq<Vote>, c: Count, o: VoteOption) {
    Of(c, o) == Counted(vals, ds, votes, o)
  }

  // ---------- Reading the votes ----------

  // currValidators, results and totalVotingPower while the votes are read.
  datatype Progress = Progress(infos: map<Addr, Info>, count: Count)

  function Start(vals: Validators): Progress {
    Progress(map a | a in vals :: Info(0, Empty), Count(0, 0, 0, 0, 0))
  }

  function CountDelegation(vals: Validators, p: Progress, d: Delegation, option: VoteOption): (r: Progress)
    requires option != Empty && p.infos.Keys == vals.Keys
    ensures r.infos.Keys == vals.Keys
  {
    if d.validator !in vals then p
    else
      var info := p.infos[d.validator];
      Progress(p.infos[d.validator := info.(deductions := info.deductions + d.shares)],
               Plus(p.count, option, Power(vals[d.validator], d.shares)))
  }

  function CountDelegations(vals: Validators, p: Progress, list: seq<Delegation>, option: VoteOption): (r: Progress)
    requires option != Empty && p.infos.Keys == vals.Keys
    ensures r.infos.Keys == vals.Keys
  {
    if list == [] then p
    else CountDelegation(vals, CountDelegations(vals, p, list[..|list| - 1], option), list[|list| - 1], option)
  }

  function CountVote(vals: Validators, ds: Delegations, p: Progress, v: Vote): (r: Progress)
    requires v.option != Empty && p.infos.Keys == vals.Keys
    ensures r.infos.Keys == vals.Keys
  {
    if v.voter in vals then p.(infos := p.infos[v.voter := p.infos[v.voter].(vote := v.option)])
    else CountDelegations(vals, p, Delegated(ds, v.voter), v.option)
  }

  predicate ValidVotes(votes: seq<Vote>) {
    forall i :: 0 <= i < |votes| ==> votes[i].option != Empty
  }

  function CountVotes(vals: Validators, ds: Delegations, votes: seq<Vote>): (r: Progress)
    requires ValidVotes(votes)
    ensures r.infos.Keys == vals.Keys
  {
    if votes == [] then Start(vals)
    else CountVote(vals, ds, CountVotes(vals, ds, votes[..|votes| - 1]), votes[|votes| - 1])
  }

  lemma SnocBallot(v: Validator, bs: seq<Ballot>, b: Ballot, o: VoteOption)
    requires v.shares > 0
    ensures BallotPower(v, bs + [b], o) == BallotPower(v, bs, o) + if b.option == o then Power(v, b.shares) else 0
    ensures SumShares(bs + [b]) == SumShares(bs) + b.shares
  {
    assert (bs + [b])[..|bs|] == bs;
  }

  lemma {:induction false} BallotsConcat(v: Validator, bs: seq<Ballot>, cs: seq<Ballot>, o: VoteOption)
    requires v.shares > 0
    ensures BallotPower(v, bs + cs, o) == BallotPower(v, bs, o) + BallotPower(v, cs, o)
    ensures SumShares(bs + cs) == SumShares(bs) + SumShares(cs)
  {
    if cs == [] {
      assert bs + cs == bs;
    } else {
      BallotsConcat(v, bs, cs[..|cs| - 1], o);
      assert bs + cs == (bs + cs[..|cs| - 1]) + [cs[|cs| - 1]];
      SnocBallot(v, bs + cs[..|cs| - 1], cs[|cs| - 1], o);
    }
  }

  // The deductions and own votes after the delegations of one voter.
  lemma {:induction false} DelegationsInfo(vals: Validators, p: Progress, list: seq<Delegation>, option: VoteOption, a: Addr)
    requires option != Empty && p.infos.Keys == vals.Keys && a in vals
    ensures CountDelegations(vals, p, list, option).infos[a] ==
            p.infos[a].(deductions := p.infos[a].deductions + SumShares(BallotsIn(list, a, option)))
  {
    if list != [] {
      var d := list[|list| - 1];
      DelegationsInfo(vals, p, list[..|list| - 1], option, a);
      SnocBallot(vals[a], BallotsIn(list[..|list| - 1], a, option), Ballot(d.shares, option), option);
    }
  }

  lemma {:induction false} VotesInfo(vals: Validators, ds: Delegations, votes: seq<Vote>, a: Addr)
    requires ValidVotes(votes) && a in vals
    ensures CountVotes(vals, ds, votes).infos[a] == Info(SumShares(Ballots(vals, ds, votes, a)), OwnVote(votes, a))
  {
    if votes != [] {
      var rest, v := votes[..|votes| - 1], votes[|votes| - 1];
      VotesInfo(vals, ds, rest, a);
      BallotsConcat(vals[a], Ballots(vals, ds, rest, a), VoterBallots(vals, ds, v, a), Empty);
      if v.voter !in vals {
        DelegationsInfo(vals, CountVotes(vals, ds, rest), Delegated(ds, v.voter), v.option, a);
      }
    }
  }

  ghost function ListPowers(vals: Validators, list: seq<Delegation>, option: VoteOption, o: VoteOption): map<Addr, int> {
    map a | a in vals :: BallotPower(vals[a], BallotsIn(list, a, option), o)
  }

  lemma ListPowersAt(v: Validator, list: seq<Delegation>, d: Delegation, option: VoteOption, o: VoteOption, a: Addr)
    requires v.shares > 0
    ensures BallotPower(v, BallotsIn(list + [d], a, option), o) ==
            BallotPower(v, BallotsIn(list, a, option), o) + if d.validator == a && option == o then Power(v, d.shares) else 0
  {
    assert (list + [d])[..|list|] == list;
    SnocBallot(v, BallotsIn(list, a, option), Ballot(d.shares, option), o);
  }

  lemma ListPowersSnoc(vals: Validators, list: seq<Delegation>, d: Delegation, option: VoteOption, o: VoteOption)
    ensures Sum(ListPowers(vals, list + [d], option, o)) == Sum(ListPowers(vals, list, option, o)) +
            if d.validator in vals && option == o then Power(vals[d.validator], d.shares) else 0
  {
    var next, was := ListPowers(vals, list + [d], option, o), ListPowers(vals, list, option, o);
    forall a | a in vals ensures next[a] == was[a] + if d.validator == a && option == o then Power(vals[a], d.shares) else 0 {
      ListPowersAt(vals[a], list, d, option, o, a);
    }
    if d.validator in vals {
      SumSame(next, was[d.validator := next[d.validator]]);
      SumSet(was, d.validator, next[d.validator]);
    } else {
      SumSame(next, was);
    }
  }

  lemma {:induction false} DelegationsCount(vals: Validators, p: Progress, list: seq<Delegation>, option: VoteOption, o: VoteOption)
    requires option != Empty && p.infos.Keys == vals.Keys
    ensures var r := CountDelegations(vals, p, list, option).count;
            Of(r, o) == Of(p.count, o) + Sum(ListPowers(vals, list, option, o)) && (Adds(p.count) ==> Adds(r))
  {
    if list == [] {
      SumZero(ListPowers(vals, list, option, o));
    } else {
      var rest, d := list[..|list| - 1], list[|list| - 1];
      DelegationsCount(vals, p, rest, option, o);
      assert list == rest + [d];
      ListPowersSnoc(vals, rest, d, option, o);
      if d.validator in vals {
        PlusOf(CountDelegations(vals, p, rest, option).count, option, Power(vals[d.validator], d.shares), o);
      }
    }
  }

  ghost function VotePowers(vals: Validators, ds: Delegations, votes: seq<Vote>, o: VoteOption): map<Addr, int> {
    map a | a in vals :: BallotPower(vals[a], Ballots(vals, ds, votes, a), o)
  }

  lemma VotePowersStep(vals: Validators, ds: Delegations, votes: seq<Vote>, o: VoteOption)
    requires votes != []
    ensures var rest, v := votes[..|votes| - 1], votes[|votes| - 1];
            Sum(VotePowers(vals, ds, votes, o)) == Sum(VotePowers(vals, ds, rest, o)) +
              if v.voter in vals then 0 else Sum(ListPowers(vals, Delegated(ds, v.voter), v.option, o))
  {
    var rest, v := votes[..|votes| - 1], votes[|votes| - 1];
    var now, was := VotePowers(vals, ds, votes, o), VotePowers(vals, ds, rest, o);
    forall a | a in vals ensures now[a] == was[a] + BallotPower(vals[a], VoterBallots(vals, ds, v, a), o) {
      BallotsConcat(vals[a], Ballots(vals, ds, rest, a), VoterBallots(vals, ds, v, a), o);
    }
    if v.voter in vals {
      assert now == was;
    } else {
      SumPlus(was, ListPowers(vals, Delegated(ds, v.voter), v.option, o), now);
    }
  }

  // Reading the votes one delegation at a time counts every ballot once, validator by validator.
  lemma {:induction false} VotesCount(vals: Validators, ds: Delegations, votes: seq<Vote>, o: VoteOption)
    requires ValidVotes(votes) && o != Empty
    ensures var c := CountVotes(vals, ds, votes).count;
            Of(c, o) == Sum(VotePowers(vals, ds, votes, o)) && Adds(c)
  {
    if votes == [] {
      SumZero(VotePowers(vals, ds, votes, o));
    } else {
      var rest, v := votes[..|votes| - 1], votes[|votes| - 1];
      VotesCount(vals, ds, rest, o);
      VotePowersStep(vals, ds, votes, o);
      if v.voter !in vals {
        DelegationsCount(vals, CountVotes(vals, ds, rest), Delegated(ds, v.voter), v.option, o);
      }
    }
  }

  method ReadDelegations(vals: Validators, p: Progress, list: seq<Delegation>, option: VoteOption) returns (r: Progress)
    requires option != Empty && p.infos.Keys == vals.Keys
    ensures r == CountDelegations(vals, p, list, option)
  {
    r := p;
    for i := 0 to |list|
      invariant r == CountDelegations(vals, p, list[..i], option)
    {
      var d := list[i];
      assert list[..i + 1][..i] == list[..i];
      if d.validator in r.infos {
        var info := r.infos[d.validator];
        var power := MulInt(Quo(d.shares, vals[d.validator].shares), vals[d.validator].bonded);
        r := Progress(r.infos[d.validator := info.(deductions := info.deductions + d.shares)], Plus(r.count, option, power));
      }
    }
    assert list[..|list|] == list;
  }

  method ReadVotes(vals: Validators, ds: Delegations, votes: seq<Vote>) returns (r: Progress)
    requires ValidVotes(votes)
    ensures r == CountVotes(vals, ds, votes)
  {
    r := Start(vals);
    for i := 0 to |votes|
      invariant r == CountVotes(vals, ds, votes[..i])
    {
      var v := votes[i];
      assert votes[..i + 1][..i] == votes[..i];
      if v.voter in r.infos {
        r := r.(infos := r.infos[v.voter := r.infos[v.voter].(vote := v.option)]);
      } else {
        r := ReadDelegations(vals, r, Delegated(ds, v.voter), v.option);
      }
    }
    assert votes[..|votes|] == votes;
  }

  // ---------- Adding the validators' own votes ----------

  ghost function OwnPowers(vals: Validators, infos: map<Addr, Info>, o: VoteOption): map<Addr, int>
    requires vals.Keys == infos.Keys
  {
    map a | a in vals :: OwnPower(vals[a], infos[a].deductions, infos[a].vote, o)
  }

  // c counts, for option o, p's ballots and the own votes of the validators in seen.
  ghost predicate SeenFor(vals: Validators, p: Progress, seen: set<Addr>, c: Count, o: VoteOption)
    requires vals.Keys == p.infos.Keys
  {
    Of(c, o) == Of(p.count, o) + Sum(Restrict(OwnPowers(vals, p.infos, o), seen))
  }

  ghost predicate Seen(vals: Validators, p: Progress, seen: set<Addr>, c: Count)
    requires vals.Keys == p.infos.Keys
  {
    (Adds(p.count) ==> Adds(c)) &&
    SeenFor(vals, p, seen, c, Yes) && SeenFor(vals, p, seen, c, Abstain) &&
    SeenFor(vals, p, seen, c, No) && SeenFor(vals, p, seen, c, NoWithVeto)
  }

  lemma SeenOneFor(vals: Validators, p: Progress, seen: set<Addr>, c: Count, a: Addr, c': Count, o: VoteOption)
    requires vals.Keys == p.infos.Keys && SeenFor(vals, p, seen, c, o) && a in vals && a !in seen && o != Empty
    requires c' == if p.infos[a].vote == Empty then c
                   else Plus(c, p.infos[a].vote, Power(vals[a], vals[a].shares - p.infos[a].deductions))
    ensures SeenFor(vals, p, seen + {a}, c', o) && (Adds(c) ==> Adds(c'))
  {
    RestrictOne(OwnPowers(vals, p.infos, o), seen, a);
    if p.infos[a].vote != Empty {
      PlusOf(c, p.infos[a].vote, Power(vals[a], vals[a].shares - p.infos[a].deductions), o);
    }
  }

  lemma SeenOne(vals: Validators, p: Progress, seen: set<Addr>, c: Count, a: Addr, c': Count)
    requires vals.Keys == p.infos.Keys && Seen(vals, p, seen, c) && a in vals && a !in seen
    requires c' == if p.infos[a].vote == Empty then c
                   else Plus(c, p.infos[a].vote, Power(vals[a], vals[a].shares - p.infos[a].deductions))
    ensures Seen(vals, p, seen + {a}, c')
  {
    SeenOneFor(vals, p, seen, c, a, c', Yes);
    SeenOneFor(vals, p, seen, c, a, c', Abstain);
    SeenOneFor(vals, p, seen, c, a, c', No);
    SeenOneFor(vals, p, seen, c, a, c', NoWithVeto);
  }

  lemma NoneSeen(vals: Validators, p: Progress)
    requires vals.Keys == p.infos.Keys
    ensures Seen(vals, p, {}, p.count)
  {
    assert Restrict(OwnPowers(vals, p.infos, Yes), {}) == map[];
    assert Restrict(OwnPowers(vals, p.infos, Abstain), {}) == map[];
    assert Restrict(OwnPowers(vals, p.infos, No), {}) == map[];
    assert Restrict(OwnPowers(vals, p.infos, NoWithVeto), {}) == map[];
  }

  // The validators are visited in the order of a Go map, which is any order.
  method AddOwnVotes(vals: Validators, p: Progress) returns (c: Count)
    requires vals.Keys == p.infos.Keys
    ensures AllSeen(vals, p, c)
  {
    c := p.count;
    var left := vals.Keys;
    NoneSeen(vals, p);
    assert vals.Keys - left == {};
    while left != {}
      invariant left <= vals.Keys && Seen(vals, p, vals.Keys - left, c)
    {
      var a :| a in left;
      var info := p.infos[a];
      ghost var was := c;
      if info.vote != Empty {
        c := Plus(c, info.vote, MulInt(Quo(vals[a].shares - info.deductions, vals[a].shares), vals[a].bonded));
      }
      SeenOne(vals, p, vals.Keys - left, was, a, c);
      assert vals.Keys - (left - {a}) == vals.Keys - left + {a};
      left := left - {a};
    }
    assert vals.Keys - {} == vals.Keys;
    SeenAll(vals, p, c);
  }

  ghost predicate AllSeen(vals: Validators, p: Progress, c: Count)
    requires vals.Keys == p.infos.Keys
  {
    (Adds(p.count) ==> Adds(c)) && forall o :: o != Empty ==> AllSeenFor(vals, p, c, o)
  }

  ghost predicate AllSeenFor(vals: Validators, p: Progress, c: Count, o: VoteOption)
    requires vals.Keys == p.infos.Keys
  {
    Of(c, o) == Of(p.count, o) + Sum(OwnPowers(vals, p.infos, o))
  }

  lemma SeenAll(vals: Validators, p: Progress, c: Count)
    requires vals.Keys == p.infos.Keys && Seen(vals, p, vals.Keys, c)
    ensures AllSeen(vals, p, c)
  {
    forall o | o != Empty ensures AllSeenFor(vals, p, c, o) {
      SeenAllFor(vals, p, c, o);
    }
  }

  lemma SeenAllFor(vals: Validators, p: Progress, c: Count, o: VoteOption)
    requires vals.Keys == p.infos.Keys && Seen(vals, p, vals.Keys, c) && o != Empty
    ensures AllSeenFor(vals, p, c, o)
  {
    RestrictAll(OwnPowers(vals, p.infos, o), vals.Keys);
  }

  // tally: every validator's shares are counted once, by their delegators' ballots or by its own vote.
  method CountAll(vals: Validators, ds: Delegations, votes: seq<Vote>) returns (c: Count)
    requires ValidVotes(votes)
    ensures IsTally(vals, ds, votes, c)
  {
    var p := ReadVotes(vals, ds, votes);
    c := AddOwnVotes(vals, p);
    TallyIs(vals, ds, votes, p, c);
  }

  lemma TallyIs(vals: Validators, ds: Delegations, votes: seq<Vote>, p: Progress, c: Count)
    requires ValidVotes(votes) && p == CountVotes(vals, ds, votes) && AllSeen(vals, p, c)
    ensures IsTally(vals, ds, votes, c)
  {
    CountAdds(vals, ds, votes);
    forall o | o != Empty ensures CountsFor(vals, ds, votes, c, o) {
      SeenIsCounted(vals, ds, votes, p, c, o);
    }
  }

  lemma SeenIsCounted(vals: Validators, ds: Delegations, votes: seq<Vote>, p: Progress, c: Count, o: VoteOption)
    requires ValidVotes(votes) && o != Empty && p == CountVotes(vals, ds, votes) && AllSeenFor(vals, p, c, o)
    ensures CountsFor(vals, ds, votes, c, o)
  {
    TallyFor(vals, ds, votes, p, o);
  }

  lemma CountAdds(vals: Validators, ds: Delegations, votes: seq<Vote>)
    requires ValidVotes(votes)
    ensures Adds(CountVotes(vals, ds, votes).count)
  {
    VotesCount(vals, ds, votes, Yes);
  }

  lemma TallyFor(vals: Validators, ds: Delegations, votes: seq<Vote>, p: Progress, o: VoteOption)
    requires ValidVotes(votes) && o != Empty && p == CountVotes(vals, ds, votes)
    ensures Counted(vals, ds, votes, o) == Of(p.count, o) + Sum(OwnPowers(vals, p.infos, o))
  {
    VotesCount(vals, ds, votes, o);
    CountedParts(vals, ds, votes, p, o);
  }

  lemma CountedParts(vals: Validators, ds: Delegations, votes: seq<Vote>, p: Progress, o: VoteOption)
    requires ValidVotes(votes) && p == CountVotes(vals, ds, votes)
    ensures Counted(vals, ds, votes, o) == Sum(VotePowers(vals, ds, votes, o)) + Sum(OwnPowers(vals, p.infos, o))
  {
    CountedSplits(vals, ds, votes, p, o, VotePowers(vals, ds, votes, o), OwnPowers(vals, p.infos, o),
                  CountedBy(vals, ds, votes, o));
  }

  lemma CountedSplits(vals: Validators, ds: Delegations, votes: seq<Vote>, p: Progress, o: VoteOption,
                      ballots: map<Addr, int>, own: map<Addr, int>, all: map<Addr, int>)
    requires ValidVotes(votes) && p == CountVotes(vals, ds, votes)
    requires ballots == VotePowers(vals, ds, votes, o) && own == OwnPowers(vals, p.infos, o) && all == CountedBy(vals, ds, votes, o)
    ensures Sum(all) == Sum(ballots) + Sum(own)
  {
    forall a | a in vals ensures all[a] == ballots[a] + own[a] {
      VotesInfo(vals, ds, votes, a);
    }
    SumPlus(ballots, own, all);
  }

  // ---------- The order of the votes does not matter ----------

  // Votes are stored under their voter, so nobody has two.
  predicate OneEach(votes: seq<Vote>) {
    forall i, j :: 0 <= i < j < |votes| ==> votes[i].voter != votes[j].voter
  }

  function PowerOf(vals: Validators, ds: Delegations, a: Addr, o: VoteOption): Vote -> int
    requires a in vals
  {
    v => BallotPower(vals[a], VoterBallots(vals, ds, v, a), o)
  }

  function SharesOf(vals: Validators, ds: Delegations, a: Addr): Vote -> int {
    v => SumShares(VoterBallots(vals, ds, v, a))
  }

  lemma {:induction false} BallotsBySum(vals: Validators, ds: Delegations, votes: seq<Vote>, a: Addr, o: VoteOption)
    requires a in vals
    ensures BallotPower(vals[a], Ballots(vals, ds, votes, a), o) == SeqSum(votes, PowerOf(vals, ds, a, o))
    ensures SumShares(Ballots(vals, ds, votes, a)) == SeqSum(votes, SharesOf(vals, ds, a))
  {
    if votes != [] {
      var rest, v := votes[..|votes| - 1], votes[|votes| - 1];
      BallotsBySum(vals, ds, rest, a, o);
      BallotsConcat(vals[a], Ballots(vals, ds, rest, a), VoterBallots(vals, ds, v, a), o);
    }
  }

  lemma {:induction false} OwnVoteIs(votes: seq<Vote>, a: Addr)
    requires OneEach(votes)
    ensures forall v :: v in votes && v.voter == a ==> OwnVote(votes, a) == v.option
    ensures (forall v :: v in votes ==> v.voter != a) ==> OwnVote(votes, a) == Empty
  {
    if votes != [] {
      OwnVoteIs(votes[..|votes| - 1], a);
    }
  }

  lemma SameOwnVote(votes: seq<Vote>, votes': seq<Vote>, a: Addr)
    requires OneEach(votes) && OneEach(votes') && multiset(votes) == multiset(votes')
    ensures OwnVote(votes, a) == OwnVote(votes', a)
  {
    OwnVoteIs(votes, a);
    OwnVoteIs(votes', a);
    assert forall v :: v in votes <==> v in multiset(votes);
    assert forall v :: v in votes' <==> v in multiset(votes');
  }

  lemma SameCountedAt(vals: Validators, ds: Delegations, votes: seq<Vote>, votes': seq<Vote>, a: Addr, o: VoteOption)
    requires OneEach(votes) && OneEach(votes') && multiset(votes) == multiset(votes') && a in vals
    ensures CountedAt(vals, ds, votes, a, o) == CountedAt(vals, ds, votes', a, o)
  {
    SameOwnVote(votes, votes', a);
    BallotsBySum(vals, ds, votes, a, o);
    BallotsBySum(vals, ds, votes', a, o);
    SeqSumPermute(votes, votes', PowerOf(vals, ds, a, o));
    SeqSumPermute(votes, votes', SharesOf(vals, ds, a));
  }

  lemma SameCounted(vals: Validators, ds: Delegations, votes: seq<Vote>, votes': seq<Vote>, o: VoteOption)
    requires OneEach(votes) && OneEach(votes') && multiset(votes) == multiset(votes')
    ensures Counted(vals, ds, votes, o) == Counted(vals, ds, votes', o)
  {
    var m, n := CountedBy(vals, ds, votes, o), CountedBy(vals, ds, votes', o);
    forall a | a in m ensures m[a] == n[a] {
      SameCountedAt(vals, ds, votes, votes', a, o);
    }
    SumSame(m, n);
  }

  lemma OrderIsIrrelevant(vals: Validators, ds: Delegations, votes: seq<Vote>, votes': seq<Vote>, c: Count, c': Count)
    requires OneEach(votes) && OneEach(votes') && multiset(votes) == multiset(votes')
    requires IsTally(vals, ds, votes, c) && IsTally(vals, ds, votes', c')
    ensures c == c'
  {
    forall o | o != Empty ensures Of(c, o) == Of(c', o) {
      assert CountsFor(vals, ds, votes, c, o) && CountsFor(vals, ds, votes', c', o);
      SameCounted(vals, ds, votes, votes', o);
    }
    SameCount(c, c');
  }

  lemma SameCount(c: Count, c': Count)
    requires Adds(c) && Adds(c') && forall o :: o != Empty ==> Of(c, o) == Of(c', o)
    ensures c == c'
  {
    assert Of(c, Yes) == Of(c', Yes) && Of(c, Abstain) == Of(c', Abstain);
    assert Of(c, No) == Of(c', No) && Of(c, NoWithVeto) == Of(c', NoWithVeto);
  }

  // ---------- Nothing is counted twice, up to rounding ----------

  function AllPower(v: Validator, bs: seq<Ballot>): Dec
    requires v.shares > 0
  {
    BallotPower(v, bs, Yes) + BallotPower(v, bs, Abstain) + BallotPower(v, bs, No) + BallotPower(v, bs, NoWithVeto)
  }

  function SumQuo(s: Dec, bs: seq<Ballot>): Dec
    requires s > 0
  {
    if bs == [] then 0 else SumQuo(s, bs[..|bs| - 1]) + Quo(bs[|bs| - 1].shares, s)
  }

  lemma {:induction false} AllPowerIs(v: Validator, bs: seq<Ballot>)
    requires v.shares > 0 && forall i :: 0 <= i < |bs| ==> bs[i].option != Empty
    ensures AllPower(v, bs) == SumQuo(v.shares, bs) * v.bonded
  {
    if bs != [] {
      var rest, b := bs[..|bs| - 1], bs[|bs| - 1];
      AllPowerIs(v, rest);
      assert AllPower(v, bs) == AllPower(v, rest) + Power(v, b.shares);
      Distribute(SumQuo(v.shares, rest), Quo(b.shares, v.shares), v.bonded);
    }
  }

  lemma ErrorsAdd(x: int, y: int, n: nat, b: nat)
    requires Abs(2 * UNIT * x) <= n * b && Abs(2 * UNIT * y) <= b
    ensures Abs(2 * UNIT * (x + y)) <= (n + 1) * b
  {
    Distribute(n, 1, b);
  }

  // How far the counted parts are from the shares they stand for.
  function Off(q: Dec, s: Dec, shares: Dec): int {
    q * s - shares * UNIT
  }

  lemma OffAdds(p: Dec, q: Dec, s: Dec, x: Dec, y: Dec)
    ensures Off(p + q, s, x + y) == Off(p, s, x) + Off(q, s, y)
  {
    Distribute(p, q, s);
  }

  lemma {:induction false} SumQuoError(s: Dec, bs: seq<Ballot>)
    requires s > 0
    ensures Abs(2 * UNIT * Off(SumQuo(s, bs), s, SumShares(bs))) <= |bs| * ((UNIT + 2) * s)
  {
    if bs != [] {
      var rest, b := bs[..|bs| - 1], bs[|bs| - 1];
      SumQuoError(s, rest);
      QuoError(b.shares, s);
      var q := Quo(b.shares, s);
      OffAdds(SumQuo(s, rest), q, s, SumShares(rest), b.shares);
      ErrorsAdd(Off(SumQuo(s, rest), s, SumShares(rest)), Off(q, s, b.shares), |rest|, (UNIT + 2) * s);
    }
  }

  lemma PartsAreBonded(v: Validator, bs: seq<Ballot>)
    requires v.shares > 0 && v.bonded >= 0 && forall i :: 0 <= i < |bs| ==> bs[i].option != Empty
    ensures Abs(2 * UNIT * (AllPower(v, bs) + Power(v, v.shares - SumShares(bs)) - NewDec(v.bonded))) <=
            (|bs| + 1) * (UNIT + 2) * v.bonded
  {
    var own := Quo(v.shares - SumShares(bs), v.shares);
    var p := SumQuo(v.shares, bs);
    PartsError(v.shares, bs);
    AllPowerIs(v, bs);
    PowerError(p, own, v.bonded, (|bs| + 1) * (UNIT + 2));
  }

  lemma {:induction false} BallotOptions(vals: Validators, ds: Delegations, votes: seq<Vote>, a: Addr)
    requires ValidVotes(votes)
    ensures forall b :: b in Ballots(vals, ds, votes, a) ==> b.option != Empty
  {
    if votes != [] {
      BallotOptions(vals, ds, votes[..|votes| - 1], a);
      var v := votes[|votes| - 1];
      ListOptions(Delegated(ds, v.voter), a, v.option);
    }
  }

  lemma {:induction false} ListOptions(list: seq<Delegation>, a: Addr, option: VoteOption)
    ensures forall b :: b in BallotsIn(list, a, option) ==> b.option == option
  {
    if list != [] { ListOptions(list[..|list| - 1], a, option); }
  }

  // All that is counted for a validator that votes is its bonded tokens; each ballot and the vote itself is
  // off by little more than half a unit in the last decimal place, per token.
  lemma VotedPowerIsBonded(vals: Validators, ds: Delegations, votes: seq<Vote>, a: Addr)
    requires a in vals && vals[a].bonded >= 0 && ValidVotes(votes) && OwnVote(votes, a) != Empty
    ensures var counted := CountedAt(vals, ds, votes, a, Yes) + CountedAt(vals, ds, votes, a, Abstain) +
                           CountedAt(vals, ds, votes, a, No) + CountedAt(vals, ds, votes, a, NoWithVeto);
            Abs(2 * UNIT * (counted - NewDec(vals[a].bonded))) <=
            (|Ballots(vals, ds, votes, a)| + 1) * (UNIT + 2) * vals[a].bonded
  {
    var v, bs := vals[a], Ballots(vals, ds, votes, a);
    BallotOptions(vals, ds, votes, a);
    assert forall i :: 0 <= i < |bs| ==> bs[i] in bs;
    PartsAreBonded(v, bs);
  }

  lemma PowerError(p: int, own: int, bonded: nat, n: nat)
    requires Abs(2 * UNIT * (p + own - UNIT)) <= n
    ensures Abs(2 * UNIT * (p * bonded + own * bonded - bonded * UNIT)) <= n * bonded
  {
    var x := p + own - UNIT;
    Distribute(p, own, bonded);
    Distribute(p + own, -UNIT, bonded);
    ScaleError(2 * UNIT * x, bonded, n);
  }

  lemma PartsError(s: Dec, bs: seq<Ballot>)
    requires s > 0
    ensures Abs(2 * UNIT * (SumQuo(s, bs) + Quo(s - SumShares(bs), s) - UNIT)) <= (|bs| + 1) * (UNIT + 2)
  {
    var p, own, x := SumQuo(s, bs), Quo(s - SumShares(bs), s), SumShares(bs);
    SumQuoError(s, bs);
    QuoError(s - x, s);
    OffAdds(p, own, s, x, s - x);
    ErrorsAdd(Off(p, s, x), Off(own, s, s - x), |bs|, (UNIT + 2) * s);
    CancelShares(p + own, s, |bs| + 1);
  }

  lemma CancelShares(q: int, s: int, n: nat)
    requires s > 0 && Abs(2 * UNIT * Off(q, s, s)) <= n * ((UNIT + 2) * s)
    ensures Abs(2 * UNIT * (q - UNIT)) <= n * (UNIT + 2)
  {
    var x := q - UNIT;
    Distribute(q, -UNIT, s);
    Regroup(2 * UNIT, x, s);
    Regroup(n, UNIT + 2, s);
    CancelFactor(2 * UNIT * x, n * (UNIT + 2), s);
    CancelFactor(-(2 * UNIT * x), n * (UNIT + 2), s);
  }

  lemma CancelFactor(x: int, y: int, s: int)
    requires s > 0
    ensures x * s <= y * s ==> x <= y
    ensures (-x) * s == -(x * s)
  {
    if x > y { MulLess(y, x, s); }
  }

  // ---------- The decision ----------

  datatype Params = Params(quorum: Dec, threshold: Dec, veto: Dec)

  // None is a panic: division by zero.
  function QuoOrPanic(a: Dec, b: Dec): Option<Dec> {
    if b == 0 then None else Some(Quo(a, b))
  }

  function Decide(c: Count, totalBonded: int, params: Params): Option<bool> {
    if totalBonded == 0 then Some(false)
    else if Quo(c.total, NewDec(totalBonded)) < params.quorum then Some(false)
    else if c.total - c.abstain == 0 then Some(false)
    else
      match QuoOrPanic(c.veto, c.total)
      case None => None
      case Some(vetoed) =>
        if vetoed > params.veto then Some(false)
        else
          match QuoOrPanic(c.yes, c.total - c.abstain)
          case None => None
          case Some(yes) => Some(yes > params.threshold)
  }

  // The decision with its early returns.
  method Conclude(c: Count, totalBonded: int, params: Params) returns (passes: Option<bool>)
    ensures passes == Decide(c, totalBonded, params)
  {
    if totalBonded == 0 { return Some(false); }
    var percentVoting := Quo(c.total, NewDec(totalBonded));
    if percentVoting < params.quorum { return Some(false); }
    if c.total - c.abstain == 0 { return Some(false); }
    var vetoed := QuoOrPanic(c.veto, c.total);
    if vetoed.None? { return None; }
    if vetoed.value > params.veto { return Some(false); }
    var yes := QuoOrPanic(c.yes, c.total - c.abstain);
    if yes.None? { return None; }
    return Some(yes.value > params.threshold);
  }

  // tally
  method TallyVotes(vals: Validators, ds: Delegations, votes: seq<Vote>, totalBonded: int, params: Params)
    returns (passes: Option<bool>, c: Count)
    requires ValidVotes(votes)
    ensures IsTally(vals, ds, votes, c) && passes == Decide(c, totalBonded, params)
  {
    c := CountAll(vals, ds, votes);
    passes := Conclude(c, totalBonded, params);
  }

  predicate NonNegative(c: Count) {
    Adds(c) && c.yes >= 0 && c.abstain >= 0 && c.no >= 0 && c.veto >= 0
  }

  // A fraction reaches a value to 18 decimal places; no division is involved.
  predicate Reaches(part: Dec, whole: Dec, q: Dec) {
    part * UNIT * UNIT >= Cut(q) * whole
  }

  // Exactly when a proposal passes: a quorum of the bonded tokens voted, at most the veto share vetoed,
  // and more than the threshold of the votes that did not abstain were Yes.
  lemma PassesIff(c: Count, totalBonded: int, params: Params)
    requires NonNegative(c) && totalBonded >= 0
    ensures Decide(c, totalBonded, params) == Some(true) <==>
            totalBonded > 0 && c.total > c.abstain && Reaches(c.total, NewDec(totalBonded), params.quorum) &&
            !Reaches(c.veto, c.total, params.veto + 1) && Reaches(c.yes, c.total - c.abstain, params.threshold + 1)
  {
    if totalBonded > 0 && c.total > c.abstain {
      QuoAtLeast(c.total, NewDec(totalBonded), params.quorum);
      QuoAtLeast(c.veto, c.total, params.veto + 1);
      QuoAtLeast(c.yes, c.total - c.abstain, params.threshold + 1);
    }
  }

  // The parameters are met to within one unit in the last decimal place, and meeting them by one suffices.
  lemma PassingMargin(c: Count, totalBonded: int, params: Params)
    requires NonNegative(c) && totalBonded > 0 && c.total > c.abstain
    ensures Decide(c, totalBonded, params) == Some(true) ==>
              c.total * UNIT > (params.quorum - 1) * NewDec(totalBonded) &&
              c.veto * UNIT < (params.veto + 1) * c.total && c.yes * UNIT > params.threshold * (c.total - c.abstain)
    ensures (c.total * UNIT >= params.quorum * NewDec(totalBonded) && c.veto * UNIT <= params.veto * c.total &&
             c.yes * UNIT >= (params.threshold + 1) * (c.total - c.abstain)) ==> Decide(c, totalBonded, params) == Some(true)
  {
    AtLeastNear(c.total, NewDec(totalBonded), params.quorum);
    AtLeastNear(c.veto, c.total, params.veto + 1);
    AtLeastNear(c.yes, c.total - c.abstain, params.threshold + 1);
  }

  lemma AtLeastNear(a: Dec, b: Dec, q: Dec)
    requires b > 0
    ensures Quo(a, b) >= q ==> a * UNIT > (q - 1) * b
    ensures a * UNIT >= q * b ==> Quo(a, b) >= q
    ensures a * UNIT <= (q - 1) * b ==> Quo(a, b) < q
    ensures Quo(a, b) < q ==> a * UNIT < q * b
  {
    QuoNear(a, b);
    var r := Quo(a, b);
    if r >= q { MulOrder(q - 1, r - 1, b); } else { MulOrder(r + 1, q, b); }
  }

  // More Yes votes never turn a passing proposal into a failing one.
  lemma YesHelps(c: Count, x: Dec, totalBonded: int, params: Params)
    requires NonNegative(c) && x >= 0 && totalBonded >= 0 && Decide(c, totalBonded, params) == Some(true)
    ensures Decide(Plus(c, Yes, x), totalBonded, params) == Some(true)
  {
    PassesIff(c, totalBonded, params);
    PassesIff(Plus(c, Yes, x), totalBonded, params);
    MoreReaches(c.yes, c.total - c.abstain, x, params.threshold + 1);
    LessReaches(c.veto, c.total, x, params.veto + 1);
  }

  // Adding to part and whole alike does not lower a fraction of at most one.
  lemma MoreReaches(part: Dec, whole: Dec, x: Dec, q: Dec)
    requires 0 <= part <= whole && 0 < whole && 0 <= x && Reaches(part, whole, q)
    ensures Reaches(part + x, whole + x, q)
  {
    var k := Cut(q);
    if k > UNIT * UNIT { MulLess(UNIT * UNIT, k, whole); }
    MulOrder(k, UNIT * UNIT, x);
    Distribute(whole, x, k);
  }

  lemma LessReaches(part: Dec, whole: Dec, x: Dec, q: Dec)
    requires 0 <= part && 0 < whole && 0 <= x && !Reaches(part, whole, q)
    ensures !Reaches(part, whole + x, q)
  {
    var k := Cut(q);
    if k < 0 { MulOrder(k, 0, whole); }
    MulOrder(0, x, k);
    Distribute(whole, x, k);
  }

  // ---------- The shares of the voters are within the validator's ----------

  function SharesTo(list: seq<Delegation>, a: Addr): Dec {
    if list == [] then 0
    else
      var d := list[|list| - 1];
      SharesTo(list[..|list| - 1], a) + if d.validator == a then d.shares else 0
  }

  ghost function AllSharesTo(ds: Delegations, a: Addr): map<Addr, int> {
    map u | u in ds :: SharesTo(ds[u], a)
  }

  predicate Held(list: seq<Delegation>) {
    forall i :: 0 <= i < |list| ==> list[i].shares >= 0
  }

  // What x/staking keeps: a validator's shares are those of its delegations.
  ghost predicate Staked(vals: Validators, ds: Delegations) {
    (forall u :: u in ds ==> Held(ds[u])) &&
    (forall a :: a in vals ==> vals[a].bonded >= 0 && Sum(AllSharesTo(ds, a)) == vals[a].shares)
  }

  lemma {:induction false} BallotShares(list: seq<Delegation>, a: Addr, option: VoteOption)
    requires Held(list)
    ensures SumShares(BallotsIn(list, a, option)) == SharesTo(list, a) >= 0
  {
    if list != [] {
      var d := list[|list| - 1];
      BallotShares(list[..|list| - 1], a, option);
      SnocBallot(Validator(0, 1), BallotsIn(list[..|list| - 1], a, option), Ballot(d.shares, option), option);
    }
  }

  lemma {:induction false} BallotsHeld(list: seq<Delegation>, a: Addr, option: VoteOption)
    requires Held(list)
    ensures forall i :: 0 <= i < |BallotsIn(list, a, option)| ==> BallotsIn(list, a, option)[i].shares >= 0
  {
    if list != [] {
      BallotsHeld(list[..|list| - 1], a, option);
    }
  }

  function Voters(votes: seq<Vote>): set<Addr> {
    set v | v in votes :: v.voter
  }

  lemma {:induction false} BallotsWithin(vals: Validators, ds: Delegations, votes: seq<Vote>, a: Addr)
    requires OneEach(votes) && forall u :: u in ds ==> Held(ds[u])
    ensures SumShares(Ballots(vals, ds, votes, a)) + Sum(AllSharesTo(ds, a) - Voters(votes)) <= Sum(AllSharesTo(ds, a))
    ensures forall i :: 0 <= i < |Ballots(vals, ds, votes, a)| ==> Ballots(vals, ds, votes, a)[i].shares >= 0
  {
    var all := AllSharesTo(ds, a);
    if votes == [] {
      assert all - Voters(votes) == all;
    } else {
      var rest, v := votes[..|votes| - 1], votes[|votes| - 1];
      BallotsWithin(vals, ds, rest, a);
      VoterShares(vals, ds, v, a);
      LastVoter(votes);
      RemoveVoter(all, Voters(rest), v.voter);
      BallotsConcat(Validator(0, 1), Ballots(vals, ds, rest, a), VoterBallots(vals, ds, v, a), Empty);
    }
  }

  lemma LastVoter(votes: seq<Vote>)
    requires votes != [] && OneEach(votes)
    ensures var rest, v := votes[..|votes| - 1], votes[|votes| - 1];
            v.voter !in Voters(rest) && Voters(votes) == Voters(rest) + {v.voter}
  {
    var rest, v := votes[..|votes| - 1], votes[|votes| - 1];
    assert votes == rest + [v];
  }

  lemma RemoveVoter(all: map<Addr, int>, done: set<Addr>, u: Addr)
    requires u !in done
    ensures Sum(all - done) == Sum(all - (done + {u})) + At(all, u)
  {
    assert all - (done + {u}) == (all - done) - {u};
    if u in all { SumPick(all - done, u); } else { assert (all - done) - {u} == all - done; }
  }

  lemma VoterShares(vals: Validators, ds: Delegations, v: Vote, a: Addr)
    requires forall u :: u in ds ==> Held(ds[u])
    ensures SumShares(VoterBallots(vals, ds, v, a)) <= At(AllSharesTo(ds, a), v.voter)
    ensures forall i :: 0 <= i < |VoterBallots(vals, ds, v, a)| ==> VoterBallots(vals, ds, v, a)[i].shares >= 0
  {
    BallotShares(Delegated(ds, v.voter), a, v.option);
    BallotsHeld(Delegated(ds, v.voter), a, v.option);
  }

  lemma PowerNonNegative(v: Validator, s: Dec)
    requires v.shares > 0 && v.bonded >= 0 && s >= 0
    ensures Power(v, s) >= 0
  {
    QuoOrder(s, v.shares, s, v.shares);
  }

  lemma {:induction false} BallotPowerNonNegative(v: Validator, bs: seq<Ballot>, o: VoteOption)
    requires v.shares > 0 && v.bonded >= 0 && forall i :: 0 <= i < |bs| ==> bs[i].shares >= 0
    ensures BallotPower(v, bs, o) >= 0
  {
    if bs != [] {
      BallotPowerNonNegative(v, bs[..|bs| - 1], o);
      PowerNonNegative(v, bs[|bs| - 1].shares);
    }
  }

  lemma CountedNonNegative(vals: Validators, ds: Delegations, votes: seq<Vote>, o: VoteOption)
    requires Staked(vals, ds) && OneEach(votes)
    ensures Counted(vals, ds, votes, o) >= 0
  {
    var m := CountedBy(vals, ds, votes, o);
    forall a | a in m ensures m[a] >= 0 {
      CountedAtNonNegative(vals, ds, votes, a, o);
    }
    if a :| a in m { SumAtLeast(m, a); }
  }

  lemma CountedAtNonNegative(vals: Validators, ds: Delegations, votes: seq<Vote>, a: Addr, o: VoteOption)
    requires Staked(vals, ds) && OneEach(votes) && a in vals
    ensures CountedAt(vals, ds, votes, a, o) >= 0
  {
    DeductionsWithin(vals, ds, votes, a);
    PartsNonNegative(vals[a], Ballots(vals, ds, votes, a), OwnVote(votes, a), o);
  }

  lemma PartsNonNegative(v: Validator, bs: seq<Ballot>, vote: VoteOption, o: VoteOption)
    requires v.shares > 0 && v.bonded >= 0 && SumShares(bs) <= v.shares
    requires forall i :: 0 <= i < |bs| ==> bs[i].shares >= 0
    ensures BallotPower(v, bs, o) + OwnPower(v, SumShares(bs), vote, o) >= 0
  {
    BallotPowerNonNegative(v, bs, o);
    PowerNonNegative(v, v.shares - SumShares(bs));
  }

  lemma DeductionsWithin(vals: Validators, ds: Delegations, votes: seq<Vote>, a: Addr)
    requires Staked(vals, ds) && OneEach(votes) && a in vals
    ensures SumShares(Ballots(vals, ds, votes, a)) <= vals[a].shares
    ensures forall i :: 0 <= i < |Ballots(vals, ds, votes, a)| ==> Ballots(vals, ds, votes, a)[i].shares >= 0
  {
    var left := AllSharesTo(ds, a) - Voters(votes);
    BallotsWithin(vals, ds, votes, a);
    forall u | u in left ensures left[u] >= 0 {
      BallotShares(ds[u], a, Yes);
    }
    SumAtLeast(left, a);
  }

  // Neither division of the decision is ever by zero.
  lemma DecisionNeverPanics(vals: Validators, ds: Delegations, votes: seq<Vote>, c: Count, totalBonded: int, params: Params)
    requires Staked(vals, ds) && OneEach(votes) && IsTally(vals, ds, votes, c)
    ensures NonNegative(c) && Decide(c, totalBonded, params).Some?
  {
    forall o ensures Of(c, o) >= 0 {
      if o != Empty {
        assert CountsFor(vals, ds, votes, c, o);
        CountedNonNegative(vals, ds, votes, o);
      }
    }
    assert Of(c, Yes) >= 0 && Of(c, Abstain) >= 0 && Of(c, No) >= 0 && Of(c, NoWithVeto) >= 0;
  }

  // ---------- Who is counted ----------

  // The power of all that one list delegates to a validator.
  function PowerTo(v: Validator, list: seq<Delegation>, a: Addr): Dec
    requires v.shares > 0
  {
    if list == [] then 0
    else
      var d := list[|list| - 1];
      PowerTo(v, list[..|list| - 1], a) + if d.validator == a then Power(v, d.shares) else 0
  }

  ghost function AllPowerTo(v: Validator, ds: Delegations, a: Addr): map<Addr, int>
    requires v.shares > 0
  {
    map u | u in ds :: PowerTo(v, ds[u], a)
  }

  // The delegators, validators excepted, who voted; and those who voted for one option.
  ghost function Participants(vals: Validators, ds: Delegations, votes: seq<Vote>): set<Addr> {
    set u | u in ds && u !in vals && u in Voters(votes)
  }

  ghost function Supporters(vals: Validators, ds: Delegations, votes: seq<Vote>, o: VoteOption): set<Addr> {
    set u | u in ds && u !in vals && Vote(u, o) in votes
  }

  lemma {:induction false} ListCounts(v: Validator, list: seq<Delegation>, a: Addr, option: VoteOption, o: VoteOption)
    requires v.shares > 0
    ensures BallotPower(v, BallotsIn(list, a, option), o) == if option == o then PowerTo(v, list, a) else 0
    ensures SumShares(BallotsIn(list, a, option)) == SharesTo(list, a)
  {
    if list != [] {
      var rest, d := list[..|list| - 1], list[|list| - 1];
      ListCounts(v, rest, a, option, o);
      SnocBallot(v, BallotsIn(rest, a, option), Ballot(d.shares, option), o);
    }
  }

  lemma VoterCounts(vals: Validators, ds: Delegations, v: Vote, a: Addr, o: VoteOption)
    requires a in vals
    ensures var counts := v.voter in ds && v.voter !in vals; var bs := VoterBallots(vals, ds, v, a);
            BallotPower(vals[a], bs, o) == (if counts && v.option == o then PowerTo(vals[a], ds[v.voter], a) else 0) &&
            SumShares(bs) == if counts then SharesTo(ds[v.voter], a) else 0
  {
    if v.voter in ds { ListCounts(vals[a], ds[v.voter], a, v.option, o); }
  }

  lemma OneMoreParticipant(vals: Validators, ds: Delegations, rest: seq<Vote>, v: Vote, votes: seq<Vote>)
    requires votes == rest + [v] && v.voter !in Voters(rest) && Voters(votes) == Voters(rest) + {v.voter}
    ensures var us := Participants(vals, ds, rest);
            v.voter !in us && Participants(vals, ds, votes) == if v.voter in ds && v.voter !in vals then us + {v.voter} else us
  {}

  lemma OneMoreSupporter(vals: Validators, ds: Delegations, rest: seq<Vote>, v: Vote, votes: seq<Vote>, o: VoteOption)
    requires votes == rest + [v] && v.voter !in Voters(rest)
    ensures var us := Supporters(vals, ds, rest, o);
            v.voter !in us &&
            Supporters(vals, ds, votes, o) ==
              if v.voter in ds && v.voter !in vals && v.option == o then us + {v.voter} else us
  {
    assert forall w :: w in rest ==> w.voter in Voters(rest);
    forall u ensures Vote(u, o) in votes <==> Vote(u, o) in rest || (u == v.voter && o == v.option) {
      assert Vote(u, o) == v <==> u == v.voter && o == v.option;
    }
  }

  lemma OneMore(vals: Validators, ds: Delegations, votes: seq<Vote>, o: VoteOption)
    requires votes != [] && OneEach(votes)
    ensures var rest, v := votes[..|votes| - 1], votes[|votes| - 1];
            var us, ss := Participants(vals, ds, rest), Supporters(vals, ds, rest, o);
            var counts := v.voter in ds && v.voter !in vals;
            v.voter !in us && v.voter !in ss && Participants(vals, ds, votes) == (if counts then us + {v.voter} else us) &&
            Supporters(vals, ds, votes, o) == if counts && v.option == o then ss + {v.voter} else ss
  {
    var rest, v := votes[..|votes| - 1], votes[|votes| - 1];
    LastVoter(votes);
    assert votes == rest + [v];
    OneMoreParticipant(vals, ds, rest, v, votes);
    OneMoreSupporter(vals, ds, rest, v, votes, o);
  }

  // The ballots a validator meets are those of the delegators who voted: for each option the power, and
  // in all the shares, that they have delegated to it.
  lemma {:induction false} BallotsAre(vals: Validators, ds: Delegations, votes: seq<Vote>, a: Addr, o: VoteOption)
    requires OneEach(votes) && a in vals
    ensures BallotPower(vals[a], Ballots(vals, ds, votes, a), o) ==
            Sum(Restrict(AllPowerTo(vals[a], ds, a), Supporters(vals, ds, votes, o)))
    ensures SumShares(Ballots(vals, ds, votes, a)) == Sum(Restrict(AllSharesTo(ds, a), Participants(vals, ds, votes)))
  {
    var powers, shares := AllPowerTo(vals[a], ds, a), AllSharesTo(ds, a);
    if votes == [] {
      SumZero(Restrict(powers, Supporters(vals, ds, votes, o)));
      SumZero(Restrict(shares, Participants(vals, ds, votes)));
    } else {
      var rest, v := votes[..|votes| - 1], votes[|votes| - 1];
      BallotsAre(vals, ds, rest, a, o);
      BallotsConcat(vals[a], Ballots(vals, ds, rest, a), VoterBallots(vals, ds, v, a), o);
      VoterCounts(vals, ds, v, a, o);
      OneMore(vals, ds, votes, o);
      if v.voter in ds && v.voter !in vals {
        RestrictOne(powers, Supporters(vals, ds, rest, o), v.voter);
        RestrictOne(shares, Participants(vals, ds, rest), v.voter);
      }
    }
  }

  // What one validator should add to an option: the power its voting delegators have with it, and, if it
  // voted so itself, the power of the shares they leave.
  ghost function Earned(vals: Validators, ds: Delegations, votes: seq<Vote>, a: Addr, o: VoteOption): Dec
    requires a in vals
  {
    Sum(Restrict(AllPowerTo(vals[a], ds, a), Supporters(vals, ds, votes, o))) +
    if Vote(a, o) !in votes then 0
    else Power(vals[a], vals[a].shares - Sum(Restrict(AllSharesTo(ds, a), Participants(vals, ds, votes))))
  }

  lemma CountedIs(vals: Validators, ds: Delegations, votes: seq<Vote>, a: Addr, o: VoteOption)
    requires OneEach(votes) && ValidVotes(votes) && a in vals && o != Empty
    ensures CountedAt(vals, ds, votes, a, o) == Earned(vals, ds, votes, a, o)
  {
    BallotsAre(vals, ds, votes, a, o);
    OwnVoteFor(votes, a, o);
  }

  lemma OwnVoteFor(votes: seq<Vote>, a: Addr, o: VoteOption)
    requires OneEach(votes) && o != Empty
    ensures OwnVote(votes, a) == o <==> Vote(a, o) in votes
  {
    OwnVoteIs(votes, a);
    assert Vote(a, o).voter == a;
  }

  // The tally, without reference to how it is taken: every option has what is due to it from each bonded
  // validator, and the total is the sum of the four.
  lemma TallyMeans(vals: Validators, ds: Delegations, votes: seq<Vote>, c: Count)
    requires OneEach(votes) && ValidVotes(votes) && IsTally(vals, ds, votes, c)
    ensures c.yes == Sum(map a | a in vals :: Earned(vals, ds, votes, a, Yes))
    ensures c.abstain == Sum(map a | a in vals :: Earned(vals, ds, votes, a, Abstain))
    ensures c.no == Sum(map a | a in vals :: Earned(vals, ds, votes, a, No))
    ensures c.veto == Sum(map a | a in vals :: Earned(vals, ds, votes, a, NoWithVeto))
    ensures c.total == c.yes + c.abstain + c.no + c.veto
  {
    OptionMeans(vals, ds, votes, c, Yes);
    OptionMeans(vals, ds, votes, c, Abstain);
    OptionMeans(vals, ds, votes, c, No);
    OptionMeans(vals, ds, votes, c, NoWithVeto);
  }

  lemma OptionMeans(vals: Validators, ds: Delegations, votes: seq<Vote>, c: Count, o: VoteOption)
    requires OneEach(votes) && ValidVotes(votes) && IsTally(vals, ds, votes, c) && o != Empty
    ensures Of(c, o) == Sum(map a | a in vals :: Earned(vals, ds, votes, a, o))
  {
    assert CountsFor(vals, ds, votes, c, o);
    var m := map a | a in vals :: Earned(vals, ds, votes, a, o);
    forall a | a in vals ensures m[a] == CountedBy(vals, ds, votes, o)[a] {
      CountedIs(vals, ds, votes, a, o);
    }
    SumSame(CountedBy(vals, ds, votes, o), m);
  }

  // ---------- The stored votes of a proposal ----------

  // What x/staking and the parameters say when a proposal is tallied.
  datatype Stake = Stake(vals: Validators, ds: Delegations, totalBonded: int, params: Params)

  predicate Cast(stored: map<Addr, VoteOption>) {
    forall a :: a in stored ==> stored[a] != Empty
  }

  // A listing of the stored votes, each once.
  ghost predicate Lists(votes: seq<Vote>, stored: map<Addr, VoteOption>) {
    OneEach(votes) && forall v :: v in votes <==> v.voter in stored && stored[v.voter] == v.option
  }

  // The proposal passes: the tally of its votes says so.
  ghost predicate Carries(stored: map<Addr, VoteOption>, s: Stake) {
    exists votes, c :: Lists(votes, stored) && IsTally(s.vals, s.ds, votes, c) && Decide(c, s.totalBonded, s.params) == Some(true)
  }

  lemma {:induction false} OnceEach(votes: seq<Vote>, v: Vote)
    requires OneEach(votes)
    ensures multiset(votes)[v] == if v in votes then 1 else 0
  {
    if votes != [] {
      var rest, w := votes[..|votes| - 1], votes[|votes| - 1];
      assert votes == rest + [w];
      OnceEach(rest, v);
      assert multiset(votes)[v] == multiset(rest)[v] + if v == w then 1 else 0;
    }
  }

  lemma ListsAgree(votes: seq<Vote>, votes': seq<Vote>, stored: map<Addr, VoteOption>)
    requires Lists(votes, stored) && Lists(votes', stored)
    ensures multiset(votes) == multiset(votes')
  {
    forall v ensures multiset(votes)[v] == multiset(votes')[v] {
      OnceEach(votes, v);
      OnceEach(votes', v);
    }
  }

  // Any listing decides.
  lemma CarriesIs(stored: map<Addr, VoteOption>, s: Stake, votes: seq<Vote>, c: Count)
    requires Lists(votes, stored) && IsTally(s.vals, s.ds, votes, c)
    ensures Carries(stored, s) <==> Decide(c, s.totalBonded, s.params) == Some(true)
  {
    if Carries(stored, s) {
      var votes', c' :| Lists(votes', stored) && IsTally(s.vals, s.ds, votes', c') &&
                        Decide(c', s.totalBonded, s.params) == Some(true);
      ListsAgree(votes, votes', stored);
      OrderIsIrrelevant(s.vals, s.ds, votes, votes', c, c');
    }
  }

  // The iterator over the stored votes.
  method ListVotes(stored: map<Addr, VoteOption>) returns (votes: seq<Vote>)
    requires Cast(stored)
    ensures Lists(votes, stored) && ValidVotes(votes)
  {
    votes := [];
    var left := stored.Keys;
    while left != {}
      invariant left <= stored.Keys && OneEach(votes) && ValidVotes(votes)
      invariant forall v :: v in votes <==> v.voter in stored && v.voter !in left && stored[v.voter] == v.option
    {
      var a :| a in left;
      votes := votes + [Vote(a, stored[a])];
      left := left - {a};
    }
  }

  // tally as EndBlocker calls it.
  method TallyStored(stored: map<Addr, VoteOption>, s: Stake) returns (panicked: bool, passes: bool)
    requires Cast(stored) && Staked(s.vals, s.ds)
    ensures !panicked && (passes <==> Carries(stored, s))
  {
    var votes := ListVotes(stored);
    var r, c := TallyVotes(s.vals, s.ds, votes, s.totalBonded, s.params);
    DecisionNeverPanics(s.vals, s.ds, votes, c, s.totalBonded, s.params);
    CarriesIs(stored, s, votes, c);
    return r.None?, r == Some(true);
  }
}

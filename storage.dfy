/**
  The ballot contract's instance storage (Ballot/src/storage.rs) as an object
  whose fields are its entries. The getters are the functions of StorageSpec
  applied to `State()`; the four setters change the fields in place.
*/
module BallotStorage {
  import opened Common
  import opened StorageSpec

  class Storage {
    var parties: Option<seq<Symbol>>
    var votes: Option<seq<Address>>
    var counts: map<Symbol, U32>
    var config: Option<Config>
    var token: Option<Address>

    /** The entries as a value. */
    function State(): Instance
      reads this
    {
      Instance(parties, votes, counts, config, token)
    }

    constructor ()
      ensures State() == StorageSpec.Empty
    {
      parties := None;
      votes := None;
      counts := map[];
      config := None;
      token := None;
    }

    method StoreParty(p: Symbol) returns (added: bool)
      modifies this
      ensures (State(), added) == StorageSpec.StoreParty(old(State()), p)
    {
      var pts := GetCandidates(State());
      if p !in pts {
        pts := pts + [p];
        parties := Some(pts);
        return true;
      }
      return false;
    }

    method UpdateCandidateCount(candidate: Symbol, count: U32)
      modifies this
      ensures State() == StorageSpec.UpdateCandidateCount(old(State()), candidate, count)
    {
      counts := counts[candidate := count];
    }

    method UpdateVotes(votes: seq<Address>)
      modifies this
      ensures State() == StorageSpec.UpdateVotes(old(State()), votes)
    {
      this.votes := Some(votes);
    }

    method StoreConfig(start: U64, end: U64, token: Address)
      modifies this
      ensures State() == StorageSpec.StoreConfig(old(State()), start, end, token)
    {
      config := Some(Config(start, end));
      this.token := Some(token);
    }
  }
}

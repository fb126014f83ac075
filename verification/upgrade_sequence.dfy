// Release-sequence acceptance: the state file keeps, for each channel, the highest accepted
// sequence number and the digest of its manifest.
module UpgradeSequence {
  import opened Wrappers

  datatype Release = Release(sequence: nat, digest: string)

  type Releases = map<string, Release>

  // The state file: absent before the first acceptance, or unparsable.
  datatype File = Missing | Corrupt | Stored(releases: Releases)

  // Which system call fails, if any; nothing before it has touched the state file.
  datatype Fault = NoFault | ReadFails | MkdirFails | WriteFails | RenameFails

  datatype Call = Call(channel: string, sequence: nat, digest: string, fault: Fault)

  predicate Readable(file: File, fault: Fault) {
    !fault.ReadFails? && !file.Corrupt?
  }

  function Known(file: File): Releases {
    if file.Stored? then file.releases else map[]
  }

  predicate Repeats(file: File, c: Call) {
    c.channel in Known(file) && Known(file)[c.channel] == Release(c.sequence, c.digest)
  }

  predicate Advances(file: File, c: Call) {
    c.channel in Known(file) ==> Known(file)[c.channel].sequence < c.sequence
  }

  predicate Accepts(file: File, c: Call) {
    Readable(file, c.fault) && (Repeats(file, c) || (Advances(file, c) && c.fault.NoFault?))
  }

  // A call that is refused or fails leaves the file alone; an accepted one records itself and no other channel.
  function After(file: File, c: Call): File {
    if Accepts(file, c) && !Repeats(file, c) then Stored(Known(file)[c.channel := Release(c.sequence, c.digest)]) else file
  }

  class SequenceStore {
    var file: File
    var temporary: Option<Releases>

    constructor (file: File)
      ensures this.file == file && temporary == None
    {
      this.file := file;
      temporary := None;
    }

    // acceptSequence: read, compare, write the temporary file, rename it over the state file.
    method AcceptSequence(channel: string, sequence: nat, digest: string, fault: Fault) returns (ok: bool)
      modifies this
      ensures ok == old(Accepts(file, Call(channel, sequence, digest, fault)))
      ensures ok <==>
                && !fault.ReadFails? && !old(file).Corrupt?
                && (if old(file).Missing? || channel !in old(file).releases || old(file).releases[channel].sequence < sequence
                    then fault.NoFault?
                    else old(file).releases[channel].sequence == sequence && old(file).releases[channel].digest == digest)
      ensures !ok ==> file == old(file)
      ensures ok ==> file.Stored? && channel in file.releases && file.releases[channel] == Release(sequence, digest)
      ensures ok ==> forall other :: other != channel ==>
                (other in file.releases <==> old(file).Stored? && other in old(file).releases)
                && (other in file.releases ==> file.releases[other] == old(file).releases[other])
      ensures file == After(old(file), Call(channel, sequence, digest, fault))
      ensures var c := Call(channel, sequence, digest, fault);
              var writes := old(Readable(file, fault) && Advances(file, c)) && !fault.MkdirFails?;
              temporary == if !writes then old(temporary)
                           else if fault.WriteFails? then Some(old(Known(file))[channel := Release(sequence, digest)]) else None
    {
      var state: Releases := map[];
      if fault.ReadFails? {
        return false;
      }
      match file {
        case Corrupt => return false;
        case Missing =>
        case Stored(releases) => state := releases;
      }
      if channel in state {
        var previous := state[channel];
        if sequence < previous.sequence {
          return false;
        }
        if sequence == previous.sequence && digest != previous.digest {
          return false;
        }
        if sequence == previous.sequence {
          return true;
        }
      }
      if fault.MkdirFails? {
        return false;
      }
      state := state[channel := Release(sequence, digest)];
      temporary := Some(state);
      if fault.WriteFails? {
        return false;
      }
      if fault.RenameFails? {
        temporary := None;
        return false;
      }
      file := Stored(state);
      temporary := None;
      return true;
    }
  }

  // ---- whole runs ----

  function Run(file: File, calls: seq<Call>): File
    decreases |calls|
  {
    if calls == [] then file else Run(After(file, calls[0]), calls[1..])
  }

  // The state of the file when call number `k` arrives.
  function Before(file: File, calls: seq<Call>, k: nat): File
    requires k <= |calls|
  {
    Run(file, calls[..k])
  }

  predicate Grew(a: File, b: File) {
    forall channel :: channel in Known(a) ==>
      channel in Known(b) && Known(a)[channel].sequence <= Known(b)[channel].sequence
      && (Known(a)[channel].sequence == Known(b)[channel].sequence ==> Known(a)[channel] == Known(b)[channel])
  }

  lemma {:induction false} RunGrows(file: File, calls: seq<Call>)
    ensures Grew(file, Run(file, calls))
    decreases |calls|
  {
    if calls != [] {
      RunGrows(After(file, calls[0]), calls[1..]);
    }
  }

  lemma {:induction false} RunAppend(file: File, a: seq<Call>, b: seq<Call>)
    ensures Run(file, a + b) == Run(Run(file, a), b)
    decreases |a|
  {
    if a == [] {
      assert a + b == b;
    } else {
      RunAppend(After(file, a[0]), a[1..], b);
      assert (a + b)[1..] == a[1..] + b;
    }
  }

  // Of two accepted calls for one channel the later has no lower sequence number, and the same number
  // means the same manifest.
  lemma {:induction false} NeverRollsBack(file: File, calls: seq<Call>, i: nat, j: nat)
    requires i < j < |calls| && calls[i].channel == calls[j].channel
    requires Accepts(Before(file, calls, i), calls[i]) && Accepts(Before(file, calls, j), calls[j])
    ensures calls[i].sequence <= calls[j].sequence
    ensures calls[i].sequence == calls[j].sequence ==> calls[i].digest == calls[j].digest
  {
    var a := Before(file, calls, i);
    var b := After(a, calls[i]);
    var middle := calls[i + 1..j];
    assert calls[..j] == calls[..i] + ([calls[i]] + middle);
    RunAppend(file, calls[..i], [calls[i]] + middle);
    assert Run(a, [calls[i]] + middle) == Run(b, middle) by {
      assert ([calls[i]] + middle)[1..] == middle;
    }
    RunGrows(b, middle);
    assert calls[i].channel in Known(b) && Known(b)[calls[i].channel] == Release(calls[i].sequence, calls[i].digest);
  }

  // A channel that no accepted call names keeps its entry, or its absence.
  lemma {:induction false} OthersUntouched(file: File, calls: seq<Call>, channel: string)
    requires forall k :: 0 <= k < |calls| ==> calls[k].channel != channel || !Accepts(Before(file, calls, k), calls[k])
    ensures channel in Known(Run(file, calls)) <==> channel in Known(file)
    ensures channel in Known(file) ==> Known(Run(file, calls))[channel] == Known(file)[channel]
    decreases |calls|
  {
    if calls != [] {
      var next := After(file, calls[0]);
      assert calls[..0] == [] && Before(file, calls, 0) == file;
      forall k | 0 <= k < |calls| - 1 ensures Before(next, calls[1..], k) == Before(file, calls, k + 1) {
        assert calls[..k + 1] == [calls[0]] + calls[1..][..k];
        assert calls[..k + 1][1..] == calls[1..][..k];
      }
      forall k | 0 <= k < |calls| - 1
        ensures calls[1..][k].channel != channel || !Accepts(Before(next, calls[1..], k), calls[1..][k])
      {
        assert calls[1..][k] == calls[k + 1];
        assert Before(next, calls[1..], k) == Before(file, calls, k + 1);
      }
      OthersUntouched(next, calls[1..], channel);
    }
  }
}

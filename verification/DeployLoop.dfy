/** The retry loop of one deploy request, as it runs against the version numbers of its form. */
module DeployLoop {
  import opened Deployments

  /** The numbers 1 to n. */
  function UpTo(n: nat): (r: set<nat>)
    ensures forall k :: k in r <==> 1 <= k <= n
  {
    if n == 0 then {} else UpTo(n - 1) + {n}
  }

  /** How many versions other requests store during the first n attempts. */
  function Overtaken(rivals: seq<nat>, n: nat): nat
    requires n <= |rivals|
  {
    if n == 0 then 0 else Overtaken(rivals, n - 1) + rivals[n - 1]
  }

  /** The first attempt that nobody overtakes, or |rivals| when each one is overtaken. */
  ghost predicate FirstQuiet(rivals: seq<nat>, n: nat) {
    n <= |rivals| && (n < |rivals| ==> rivals[n] == 0) && forall i :: 0 <= i < n ==> rivals[i] > 0
  }

  class VersionNumbers {
    var numbers: set<nat>

    ghost predicate Holds(n: nat)
      reads this
    {
      numbers == UpTo(n)
    }

    constructor ()
      ensures Holds(0)
    {
      numbers := {};
    }

    /** The stored number that no other exceeds. */
    method FindLatest() returns (latest: nat)
      ensures latest == 0 || latest in numbers
      ensures forall k :: k in numbers ==> k <= latest
    {
      latest := 0;
      var rest := numbers;
      while rest != {}
        invariant rest <= numbers
        invariant latest == 0 || latest in numbers
        invariant forall k :: k in numbers && k !in rest ==> k <= latest
        decreases |rest|
      {
        var k :| k in rest;
        if k > latest {
          latest := k;
        }
        rest := rest - {k};
      }
    }

    /** The insert under the unique index. */
    method Create(number: nat) returns (created: bool)
      modifies this
      ensures created == (number !in old(numbers))
      ensures numbers == old(numbers) + {number}
    {
      created := number !in numbers;
      if created {
        numbers := numbers + {number};
      }
    }

    /** Other requests read and insert in turn, k times. */
    method OthersCreate(k: nat, ghost n: nat)
      requires Holds(n)
      modifies this
      ensures Holds(n + k)
    {
      for i := 0 to k
        invariant Holds(n + i)
      {
        var latest := FindLatest();
        assert n + i > 0 ==> n + i in numbers;
        var created := Create(latest + 1);
        assert UpTo(n + i + 1) == UpTo(n + i) + {n + i + 1};
      }
    }

    /**
     The loop of a deploy. `rivals[i]` is how many versions of the form others store between the read and
     the insert of attempt i. It succeeds exactly when some attempt is not overtaken, at the first such one,
     with the number after everything stored by then.
     */
    method AllocateVersion(rivals: seq<nat>, ghost n: nat, ghost quiet: nat) returns (succeeded: bool, number: nat)
      requires Holds(n) && |rivals| == MAX_ATTEMPTS && FirstQuiet(rivals, quiet)
      modifies this
      ensures succeeded <==> quiet < MAX_ATTEMPTS
      ensures succeeded ==> number == n + Overtaken(rivals, quiet) + 1 && Holds(number)
      ensures !succeeded ==> Holds(n + Overtaken(rivals, MAX_ATTEMPTS)) && Overtaken(rivals, MAX_ATTEMPTS) >= 3
    {
      succeeded, number := false, 0;
      var attempts := 0;
      while !succeeded && attempts < MAX_ATTEMPTS
        invariant attempts <= MAX_ATTEMPTS
        invariant !succeeded ==>
          attempts <= quiet && Holds(n + Overtaken(rivals, attempts)) && Overtaken(rivals, attempts) >= attempts
        invariant succeeded ==> quiet < MAX_ATTEMPTS && number == n + Overtaken(rivals, quiet) + 1 && Holds(number)
        decreases MAX_ATTEMPTS - attempts, !succeeded
      {
        ghost var before := n + Overtaken(rivals, attempts);
        attempts := attempts + 1;
        var latest := FindLatest();
        assert before > 0 ==> before in numbers;
        var next := latest + 1;
        OthersCreate(rivals[attempts - 1], before);
        var created := Create(next);
        if created {
          succeeded, number := true, next;
          assert UpTo(next) == UpTo(before) + {next};
        } else {
          assert numbers == UpTo(before + rivals[attempts - 1]);
          if attempts == MAX_ATTEMPTS {
            return;
          }
        }
      }
    }
  }
}

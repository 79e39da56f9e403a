/** The Lambda version number both generators compute from the environment
    and the build number. Staging and prod deploy into one account, so the
    staging track takes the odd numbers and every other environment the even
    ones. C# `int` arithmetic is unchecked: results wrap modulo 2^32. */
module Versioning {

  newtype int32 = x: int | -0x8000_0000 <= x < 0x8000_0000

  /** Two's-complement truncation of an integer to 32 bits. */
  function Wrap32(x: int): (r: int32)
    ensures (r as int - x) % 0x1_0000_0000 == 0
  {
    var m := x % 0x1_0000_0000;
    (if m >= 0x8000_0000 then m - 0x1_0000_0000 else m) as int32
  }

  /** `Environment.Equals("staging") ? BuildVersion + (BuildVersion - 1) : BuildVersion * 2`. */
  function EnvironmentVersion(environment: string, buildVersion: int32): int32 {
    if environment == "staging" then Wrap32(buildVersion as int + (Wrap32(buildVersion as int - 1) as int))
    else Wrap32(buildVersion as int * 2)
  }

  /** Within the range where nothing wraps, staging gets 2b - 1 and every
      other environment 2b. */
  lemma EnvironmentVersionExact(environment: string, buildVersion: int32)
    requires 1 <= buildVersion < 0x4000_0000
    ensures EnvironmentVersion(environment, buildVersion) as int ==
      if environment == "staging" then 2 * buildVersion as int - 1 else 2 * buildVersion as int
  {
  }

  lemma EvenShift(a: int, k: int)
    ensures (a + 2 * k) % 2 == a % 2
  {
  }

  lemma Wrap32Parity(x: int)
    ensures (Wrap32(x) as int) % 2 == x % 2
  {
    var q, m := x / 0x1_0000_0000, x % 0x1_0000_0000;
    assert x == m + 2 * (0x8000_0000 * q);
    EvenShift(m, 0x8000_0000 * q);
    EvenShift(m - 0x1_0000_0000, 0x8000_0000);
  }


  /** Staging numbers are odd, all others even, for every 32-bit build
      number (wrap-around keeps the parity). */
  lemma EnvironmentVersionParity(environment: string, buildVersion: int32)
    ensures (EnvironmentVersion(environment, buildVersion) as int) % 2 == if environment == "staging" then 1 else 0
  {
    var b := buildVersion as int;
    if environment == "staging" {
      var w := Wrap32(b - 1) as int;
      Wrap32Parity(b - 1);
      Wrap32Parity(b + w);
    } else {
      Wrap32Parity(b * 2);
    }
  }

  /** The staging track and any other track never request the same version
      number, whatever the two build numbers. */
  lemma StagingNeverCollides(environment: string, stagingBuild: int32, otherBuild: int32)
    requires environment != "staging"
    ensures EnvironmentVersion("staging", stagingBuild) != EnvironmentVersion(environment, otherBuild)
  {
    EnvironmentVersionParity("staging", stagingBuild);
    EnvironmentVersionParity(environment, otherBuild);
  }

  /** A later build gets a strictly larger number on the same track, as long
      as nothing wraps. */
  lemma EnvironmentVersionIncreasing(environment: string, b1: int32, b2: int32)
    requires 1 <= b1 < b2 < 0x4000_0000
    ensures EnvironmentVersion(environment, b1) < EnvironmentVersion(environment, b2)
  {
    EnvironmentVersionExact(environment, b1);
    EnvironmentVersionExact(environment, b2);
  }

  /** The numbers of the documented examples. */
  lemma EnvironmentVersionExamples()
    ensures EnvironmentVersion("staging", 5) == 9
    ensures EnvironmentVersion("prod", 5) == 10
    ensures EnvironmentVersion("test", 3) == 6
  {
    EnvironmentVersionExact("staging", 5);
    EnvironmentVersionExact("prod", 5);
    EnvironmentVersionExact("test", 3);
  }

  /** The first build number whose non-staging version wraps to a negative
      number. */
  lemma EnvironmentVersionWraps()
    ensures EnvironmentVersion("prod", 0x4000_0000) == -0x8000_0000
    ensures EnvironmentVersion("staging", 0x4000_0000) == 0x7FFF_FFFF
  {
  }
}

/**
 * The three particle kinds a beam can carry, with their name, index and
 * charge, and their XML form (the name).
 */
module Particles {
  import opened Wrappers

  datatype Particle = Electron | Photon | Positron
  {
    /** `str(p)`. */
    function Name(): (r: string)
      ensures |r| > 0
    {
      match this
      case Electron => "electron"
      case Photon => "photon"
      case Positron => "positron"
    }

    /** `int(p)`. */
    function Index(): (r: int)
      ensures 1 <= r <= 3
    {
      match this
      case Electron => 1
      case Photon => 2
      case Positron => 3
    }

    /** `p.charge`, in elementary charges. */
    function Charge(): (r: int)
      ensures -1 <= r <= 1
      ensures r == Index() - 2
    {
      match this
      case Electron => -1
      case Photon => 0
      case Positron => 1
    }
  }

  /** `PARTICLES`. */
  const PARTICLES: set<Particle> := {Electron, Photon, Positron}

  /** Every particle is one of the three, and the three are told apart by index, name and charge. */
  lemma ParticlesAreThree(p: Particle, q: Particle)
    ensures p in PARTICLES
    ensures |PARTICLES| == 3
    ensures p.Index() == q.Index() <==> p == q
    ensures p.Name() == q.Name() <==> p == q
    ensures p.Charge() == q.Charge() <==> p == q
  {
    assert PARTICLES == {Electron} + {Photon} + {Positron};
  }

  /** `ParticleType.to_xml`: reading back what was written gives the particle. */
  function ToXml(p: Particle): (r: string)
    ensures FromXml(r) == Ok(p)
  {
    p.Name()
  }

  /**
   * `ParticleType.from_xml`: a lookup from name to particle, so a name that
   * is not a particle name raises KeyError.
   */
  function FromXml(value: string): (r: Result<Particle>)
    ensures r.Ok? <==> value in {Electron.Name(), Photon.Name(), Positron.Name()}
    ensures r.Ok? ==> r.value.Name() == value
    ensures r.Err? ==> r.error == KeyError
  {
    if value == "electron" then Ok(Electron)
    else if value == "photon" then Ok(Photon)
    else if value == "positron" then Ok(Positron)
    else Err(KeyError)
  }

  /**
   * Every text other than the three particle names is refused with
   * KeyError; the lookup is case-sensitive, so "Electron" is refused too.
   */
  lemma FromXmlRejectsUnknown(s: string)
    requires s != "electron" && s != "photon" && s != "positron"
    ensures FromXml(s) == Err(KeyError)
  {
  }
}

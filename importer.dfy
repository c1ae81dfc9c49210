/**
 * The base importer of simulation results: every detector of the options
 * is dispatched, by its exact class, to the importer method registered for
 * that class; detectors without one produce a warning and no result.
 */
module Importer {

  /** A detector, seen through the name of its exact class. */
  datatype Detector = Detector(className: string, parameters: seq<real>)

  /** The importer's output: the results per detector name and the names warned about, in order. */
  datatype Imported<R> = Imported(results: map<string, R>, warnings: seq<string>)

  predicate DistinctNames(detectors: seq<(string, Detector)>)
  {
    forall i, j :: 0 <= i < j < |detectors| ==> detectors[i].0 != detectors[j].0
  }

  /** The names of the detectors whose class has no registered importer, in iteration order. */
  function Unregistered<H>(detectors: seq<(string, Detector)>, importers: map<string, H>): seq<string>
  {
    if detectors == [] then []
    else (if detectors[0].1.className in importers then [] else [detectors[0].0])
         + Unregistered(detectors[1..], importers)
  }

  /** `results` holds exactly the imported results of the first k detectors. */
  ghost predicate ResultsUpTo<H, R>(results: map<string, R>, detectors: seq<(string, Detector)>, k: nat,
                                    importers: map<string, H>, call: (H, string, Detector) -> R)
    requires k <= |detectors|
  {
    (forall name :: name in results <==>
       exists i :: 0 <= i < k && detectors[i].0 == name && detectors[i].1.className in importers)
    && (forall i :: 0 <= i < k && detectors[i].1.className in importers ==>
          detectors[i].0 in results
          && results[detectors[i].0] == call(importers[detectors[i].1.className], detectors[i].0, detectors[i].1))
  }

  /** Importing one more detector keeps the results those of the detectors so far. */
  lemma ResultsStep<H, R>(results: map<string, R>, detectors: seq<(string, Detector)>, k: nat,
                          importers: map<string, H>, call: (H, string, Detector) -> R)
    requires DistinctNames(detectors) && k < |detectors|
    requires ResultsUpTo(results, detectors, k, importers, call)
    ensures var name, d := detectors[k].0, detectors[k].1;
      ResultsUpTo(if d.className in importers then results[name := call(importers[d.className], name, d)] else results,
                  detectors, k + 1, importers, call)
  {
  }

  /** Taking one more detector appends its name to the warnings when its class is not registered. */
  lemma UnregisteredStep<H>(warnings: seq<string>, detectors: seq<(string, Detector)>, k: nat, importers: map<string, H>)
    requires k < |detectors|
    requires warnings + Unregistered(detectors[k..], importers) == Unregistered(detectors, importers)
    ensures var w := if detectors[k].1.className in importers then warnings else warnings + [detectors[k].0];
      w + Unregistered(detectors[k + 1..], importers) == Unregistered(detectors, importers)
  {
    assert detectors[k..][1..] == detectors[k + 1..];
  }

  class Importer<H> {
    var detectorImporters: map<string, H>

    /** A new importer has no registered detector importer. */
    constructor ()
      ensures detectorImporters == map[]
    {
      detectorImporters := map[];
    }

    /** A subclass registers the method importing the results of one detector class. */
    method Register(className: string, handler: H)
      modifies this
      ensures detectorImporters == old(detectorImporters)[className := handler]
    {
      detectorImporters := detectorImporters[className := handler];
    }

    /**
     * `_import_results`: for every `(name, detector)` of the options, the
     * importer registered for exactly the detector's class is called with
     * the name and the detector (`call` stands for invoking it with the
     * options and extra arguments) and its value stored under the name;
     * a detector of any other class, a subclass of a registered one
     * included, is only warned about.
     */
    method ImportResults<R>(detectors: seq<(string, Detector)>, call: (H, string, Detector) -> R)
      returns (out: Imported<R>)
      requires DistinctNames(detectors)
      ensures forall name :: name in out.results <==>
                exists i :: 0 <= i < |detectors| && detectors[i].0 == name
                            && detectors[i].1.className in detectorImporters
      ensures forall i :: 0 <= i < |detectors| && detectors[i].1.className in detectorImporters ==>
                out.results[detectors[i].0]
                == call(detectorImporters[detectors[i].1.className], detectors[i].0, detectors[i].1)
      ensures out.warnings == Unregistered(detectors, detectorImporters)
    {
      var results: map<string, R> := map[];
      var warnings: seq<string> := [];
      var k := 0;
      while k < |detectors|
        invariant 0 <= k <= |detectors|
        invariant ResultsUpTo(results, detectors, k, detectorImporters, call)
        invariant warnings + Unregistered(detectors[k..], detectorImporters)
                  == Unregistered(detectors, detectorImporters)
      {
        var (name, detector) := detectors[k];
        ResultsStep(results, detectors, k, detectorImporters, call);
        UnregisteredStep(warnings, detectors, k, detectorImporters);
        if detector.className in detectorImporters {
          results := results[name := call(detectorImporters[detector.className], name, detector)];
        } else {
          warnings := warnings + [name];
        }
        k := k + 1;
      }
      out := Imported(results, warnings);
    }
  }
}

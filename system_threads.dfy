/**
 * The system-thread test both monitors apply before they report a thread
 * (`isSystemThread` in `ThreadMonitorService` and in `ThreadMonitor`, which
 * test the same eleven name prefixes in the same order).
 */
module SystemThreads {
  import opened Common

  /** The name prefixes of the JVM's own threads. */
  const SYSTEM_PREFIXES: seq<string> := [
    "GC task thread", "G1 ", "GC worker", "VM Thread", "VM Periodic Task Thread",
    "Reference Handler", "Finalizer", "Signal Dispatcher", "Attach Listener",
    "Common-Cleaner", "process reaper"]

  /** `isSystemThread`: the name starts with one of the prefixes. */
  predicate IsSystemThread(name: string)
  {
    StartsWith(name, "GC task thread") ||
    StartsWith(name, "G1 ") ||
    StartsWith(name, "GC worker") ||
    StartsWith(name, "VM Thread") ||
    StartsWith(name, "VM Periodic Task Thread") ||
    StartsWith(name, "Reference Handler") ||
    StartsWith(name, "Finalizer") ||
    StartsWith(name, "Signal Dispatcher") ||
    StartsWith(name, "Attach Listener") ||
    StartsWith(name, "Common-Cleaner") ||
    StartsWith(name, "process reaper")
  }

  /** The chain of tests is the test against the list of prefixes. */
  lemma SystemThreadByPrefix(name: string)
    ensures IsSystemThread(name) <==> exists i :: 0 <= i < |SYSTEM_PREFIXES| && StartsWith(name, SYSTEM_PREFIXES[i])
  {
    forall i | 0 <= i < |SYSTEM_PREFIXES| ensures StartsWith(name, SYSTEM_PREFIXES[i]) ==> IsSystemThread(name) {
    }
    if IsSystemThread(name) {
      if StartsWith(name, "GC task thread") {
        assert StartsWith(name, SYSTEM_PREFIXES[0]);
      } else if StartsWith(name, "G1 ") {
        assert StartsWith(name, SYSTEM_PREFIXES[1]);
      } else if StartsWith(name, "GC worker") {
        assert StartsWith(name, SYSTEM_PREFIXES[2]);
      } else if StartsWith(name, "VM Thread") {
        assert StartsWith(name, SYSTEM_PREFIXES[3]);
      } else if StartsWith(name, "VM Periodic Task Thread") {
        assert StartsWith(name, SYSTEM_PREFIXES[4]);
      } else if StartsWith(name, "Reference Handler") {
        assert StartsWith(name, SYSTEM_PREFIXES[5]);
      } else if StartsWith(name, "Finalizer") {
        assert StartsWith(name, SYSTEM_PREFIXES[6]);
      } else if StartsWith(name, "Signal Dispatcher") {
        assert StartsWith(name, SYSTEM_PREFIXES[7]);
      } else if StartsWith(name, "Attach Listener") {
        assert StartsWith(name, SYSTEM_PREFIXES[8]);
      } else if StartsWith(name, "Common-Cleaner") {
        assert StartsWith(name, SYSTEM_PREFIXES[9]);
      } else if StartsWith(name, "process reaper") {
        assert StartsWith(name, SYSTEM_PREFIXES[10]);
      }
    }
  }

  lemma StartsWithExtended(name: string, prefix: string, suffix: string)
    requires StartsWith(name, prefix)
    ensures StartsWith(name + suffix, prefix)
  {
    assert (name + suffix)[..|prefix|] == name[..|prefix|];
  }

  /** Whatever follows a system thread's name, the longer name is a system thread's too. */
  lemma SystemThreadExtended(name: string, suffix: string)
    requires IsSystemThread(name)
    ensures IsSystemThread(name + suffix)
  {
    SystemThreadByPrefix(name);
    var i :| 0 <= i < |SYSTEM_PREFIXES| && StartsWith(name, SYSTEM_PREFIXES[i]);
    StartsWithExtended(name, SYSTEM_PREFIXES[i], suffix);
    SystemThreadByPrefix(name + suffix);
  }

  /** No name shorter than three characters is a system thread's, since "G1 " is the shortest prefix. */
  lemma ShortNamesNotSystem(name: string)
    requires |name| < 3
    ensures !IsSystemThread(name)
  {
  }

  /** The main thread is not a system thread. */
  lemma MainNotSystem()
    ensures !IsSystemThread("main")
  {
    assert "main"[..3][0] == 'm' && "G1 "[0] == 'G';
  }
}

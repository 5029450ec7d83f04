/**
 The caches inside the server are the providers' own runs: what their schedules decide
 is what requests are compared with.
 */
module Anchors {
  import opened Wrappers
  import opened SmtRoot
  import opened Store
  import opened System
  import opened Safety
  import SmtProvider
  import IssuerCert

  function RootSteps(steps: seq<Step>): seq<SmtProvider.Step> {
    if steps == [] then []
    else
      var last := steps[|steps| - 1];
      RootSteps(steps[..|steps| - 1]) + if last.RefreshRoots? then [last.root] else []
  }

  function CertSteps(steps: seq<Step>): seq<IssuerCert.Step> {
    if steps == [] then []
    else
      var last := steps[|steps| - 1];
      CertSteps(steps[..|steps| - 1]) + if last.RefreshCerts? then [last.cert] else []
  }

  /** Only its own refresh steps move a cache. */
  lemma OwnStepsMove(c: Config, s: State, st: Step)
    requires Enabled(c, s, st)
    ensures var t := Apply(c, s, st);
            && (if st.RefreshRoots? then SmtProvider.Enabled(c.rootSources, s.roots, st.root) && t.roots == SmtProvider.Apply(c.rootSources, s.roots, st.root)
                else t.roots == s.roots)
            && (if st.RefreshCerts? then IssuerCert.Enabled(c.certSources, s.certs, st.cert) && t.certs == IssuerCert.Apply(c.world, c.certSources, s.certs, st.cert)
                else t.certs == s.certs)
  {
    hide SmtProvider.Apply, IssuerCert.Apply, SmtProvider.Enabled, IssuerCert.Enabled;
    if MovesRequest(st) {
      OnlyThisMoves(c, s, st);
      hide Apply;
    } else if !st.RefreshRoots? && !st.RefreshCerts? {
      OthersLeaveRequests(c, s, st);
      hide Apply;
    }
  }

  /** A provider's step can always be taken inside the server. */
  lemma RefreshesAnyTime(c: Config, s: State)
    ensures forall st :: SmtProvider.Enabled(c.rootSources, s.roots, st) ==> Enabled(c, s, RefreshRoots(st))
    ensures forall st :: IssuerCert.Enabled(c.certSources, s.certs, st) ==> Enabled(c, s, RefreshCerts(st))
  {
    hide SmtProvider.Enabled, IssuerCert.Enabled;
  }

  lemma {:induction false} CachesAreProviders(c: Config, start: int, steps: seq<Step>)
    requires After(c, start, steps).Some?
    ensures SmtProvider.After(c.rootSources, RootSteps(steps)) == Some(After(c, start, steps).value.roots)
    ensures IssuerCert.After(c.world, c.certSources, start, CertSteps(steps)) == Some(After(c, start, steps).value.certs)
    decreases |steps|
  {
    if steps != [] {
      var init, st := steps[..|steps| - 1], steps[|steps| - 1];
      CachesAreProviders(c, start, init);
      OwnStepsMove(c, After(c, start, init).value, st);
      hide Apply, Enabled, SmtProvider.Apply, IssuerCert.Apply, SmtProvider.Enabled, IssuerCert.Enabled;
      var rs, cs := RootSteps(init), CertSteps(init);
      if st.RefreshRoots? {
        assert (rs + [st.root])[..|rs|] == rs;
      } else {
        assert RootSteps(steps) == rs;
      }
      if st.RefreshCerts? {
        assert (cs + [st.cert])[..|cs|] == cs;
      } else {
        assert CertSteps(steps) == cs;
      }
    }
  }
}

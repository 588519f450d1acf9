/**
 * The extension's and the web client's error translators side by side: the
 * same rules in a different order, with different network markers.
 */
module TranslatorsCompared {
  import opened Wrappers
  import opened JsString
  import opened FriendlyErrors
  import Ext = ExtensionProviders
  import ExtOrder = ExtensionProvidersOrdering
  import Web = WebApiService

  const NetworkBlocked := ExtOrder.NetworkBlocked

  lemma WebNetworkBlockedNoQuota()
    ensures !Web.QuotaSignal(NetworkBlocked)
  {
    WebNetworkBlockedNoQuotaMarker();
    assert !Contains(NetworkBlocked, "resource has been exhausted") by { NotContainsChar(NetworkBlocked, "resource has been exhausted", 2); }
  }

  lemma WebNetworkBlockedNoQuotaMarker()
    ensures !Contains(NetworkBlocked, "429") && !Contains(NetworkBlocked, "quota") && !Contains(NetworkBlocked, "rate limit")
  {
    assert !Contains(NetworkBlocked, "429") by { NotContainsChar(NetworkBlocked, "429", 0); }
    assert !Contains(NetworkBlocked, "quota") by { NotContainsChar(NetworkBlocked, "quota", 0); }
    assert !Contains(NetworkBlocked, "rate limit") by { NotContainsChar(NetworkBlocked, "rate limit", 1); }
  }

  lemma WebNetworkBlockedNoAuth()
    ensures !Web.AuthSignal(NetworkBlocked)
  {
    assert !Contains(NetworkBlocked, "401") by { NotContainsChar(NetworkBlocked, "401", 0); }
    assert !Contains(NetworkBlocked, "403") by { NotContainsChar(NetworkBlocked, "403", 0); }
    assert !Contains(NetworkBlocked, "api key") by { NotContainsChar(NetworkBlocked, "api key", 0); }
    assert !Contains(NetworkBlocked, "unauthorized") by { NotContainsChar(NetworkBlocked, "unauthorized", 0); }
  }

  lemma WebNetworkBlockedNoModelOverload()
    ensures !Web.ModelSignal(NetworkBlocked) && !Web.OverloadSignal(NetworkBlocked)
  {
    assert !Contains(NetworkBlocked, "model") by { NotContainsChar(NetworkBlocked, "model", 0); }
    assert !Contains(NetworkBlocked, "overloaded") by { NotContainsChar(NetworkBlocked, "overloaded", 1); }
    assert !Contains(NetworkBlocked, "503") by { NotContainsChar(NetworkBlocked, "503", 0); }
  }

  /**
   * `network blocked` fires the network and the safety rule of both
   * translators; the extension calls it a network error, the web client a
   * safety block.
   */
  lemma NetworkBlockedClassifiedDifferently()
    ensures Ext.Classify(NetworkBlocked) == Network
    ensures Web.Classify(NetworkBlocked) == Safety
    ensures Web.FriendlyErrorMessage(Some(NetworkBlocked)) == Web.SafetyMessage
  {
    ExtOrder.NetworkBlockedIsNetwork();
    ExtOrder.NetworkBlockedLower();
    WebNetworkBlockedNoQuota();
    WebNetworkBlockedNoAuth();
    WebNetworkBlockedNoModelOverload();
    assert ContainsAt(NetworkBlocked, "blocked", 8);
    Web.ClassifiedAs(NetworkBlocked, Safety);
  }

  const SecurityError := "security error"

  lemma SecurityNoQuota()
    ensures !Web.QuotaSignal(SecurityError)
  {
    SecurityNoQuotaMarker();
    assert !Contains(SecurityError, "resource has been exhausted") by { NotContainsChar(SecurityError, "resource has been exhausted", 9); }
  }

  lemma SecurityNoQuotaMarker()
    ensures !Contains(SecurityError, "429") && !Contains(SecurityError, "quota") && !Contains(SecurityError, "rate limit")
  {
    assert !Contains(SecurityError, "429") by { NotContainsChar(SecurityError, "429", 0); }
    assert !Contains(SecurityError, "quota") by { NotContainsChar(SecurityError, "quota", 0); }
    assert !Contains(SecurityError, "rate limit") by { NotContainsChar(SecurityError, "rate limit", 1); }
  }

  lemma SecurityNoAuth()
    ensures !Web.AuthSignal(SecurityError)
  {
    assert !Contains(SecurityError, "401") by { NotContainsChar(SecurityError, "401", 0); }
    assert !Contains(SecurityError, "403") by { NotContainsChar(SecurityError, "403", 0); }
    assert !Contains(SecurityError, "api key") by { NotContainsChar(SecurityError, "api key", 0); }
    assert !Contains(SecurityError, "unauthorized") by { NotContainsChar(SecurityError, "unauthorized", 1); }
  }

  lemma SecurityNoMiddleRule()
    ensures !Web.ModelSignal(SecurityError) && !Web.OverloadSignal(SecurityError)
  {
    assert !Contains(SecurityError, "model") by { NotContainsChar(SecurityError, "model", 0); }
    assert !Contains(SecurityError, "overloaded") by { NotContainsChar(SecurityError, "overloaded", 1); }
    assert !Contains(SecurityError, "503") by { NotContainsChar(SecurityError, "503", 0); }
  }

  lemma SecurityNoLateRule()
    ensures !Web.SafetySignal(SecurityError) && !Web.NetworkSignal(SecurityError)
  {
    assert !Contains(SecurityError, "safety") by { NotContainsChar(SecurityError, "safety", 1); }
    assert !Contains(SecurityError, "harmful") by { NotContainsChar(SecurityError, "harmful", 0); }
    assert !Contains(SecurityError, "blocked") by { NotContainsChar(SecurityError, "blocked", 0); }
    assert !Contains(SecurityError, "fetch") by { NotContainsChar(SecurityError, "fetch", 0); }
    assert !Contains(SecurityError, "network") by { NotContainsChar(SecurityError, "network", 0); }
    assert !Contains(SecurityError, "connection") by { NotContainsChar(SecurityError, "connection", 3); }
  }

  /**
   * `security` is a network marker only in the extension: the web client
   * matches no rule on `security error` and shows it unchanged.
   */
  lemma SecurityIsNetworkOnlyInExtension()
    ensures Ext.NetworkSignal(SecurityError)
    ensures Web.Classify(SecurityError) == Verbatim
    ensures Web.FriendlyErrorMessage(Some(SecurityError)) == SecurityError
  {
    LowerNoCapitals(SecurityError);
    assert ContainsAt(SecurityError, "security", 0);
    SecurityNoQuota();
    SecurityNoAuth();
    SecurityNoMiddleRule();
    SecurityNoLateRule();
    TrimNoop(SecurityError);
    Web.ClassifiedAs(SecurityError, Verbatim);
  }
}

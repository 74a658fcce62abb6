/** `ContainerRunHelper`: whether the process runs in a container, and the
    first IPv4 address of the host. The environment variable and the host's
    DNS address list are passed in. */
module ContainerRunHelper {
  import opened Wrappers
  import opened Text
  import opened Net

  /** `IsRunningInContainer()`, given the value of `DOTNET_RUNNING_IN_CONTAINER`
      (`None` when unset): trimmed and lower-cased, it must read "true". */
  function IsRunningInContainer(variable: Option<string>): bool
  {
    variable.Some? && ToLowerAscii(Trim(variable.value)) == "true"
  }

  /** "true" in any mix of upper and lower case. */
  predicate IsTrueInAnyCase(x: string) {
    && |x| == 4
    && (x[0] == 't' || x[0] == 'T')
    && (x[1] == 'r' || x[1] == 'R')
    && (x[2] == 'u' || x[2] == 'U')
    && (x[3] == 'e' || x[3] == 'E')
  }

  /** "true" in any case, surrounded by white space, sets the flag. */
  lemma PaddedTrueSetsFlag(before: string, x: string, after: string)
    requires AllWhiteSpace(before) && AllWhiteSpace(after) && IsTrueInAnyCase(x)
    ensures IsRunningInContainer(Some(before + x + after))
  {
    TrimOfPadded(before, x, after);
    LowerOfTrueInAnyCase(x);
  }

  /** Lower-casing reads "true" exactly for "true" in any case. */
  lemma LowerOfTrueInAnyCase(x: string)
    ensures ToLowerAscii(x) == "true" <==> IsTrueInAnyCase(x)
  {
    var l := ToLowerAscii(x);
    if IsTrueInAnyCase(x) {
      assert l[0] == 't' && l[1] == 'r' && l[2] == 'u' && l[3] == 'e';
    }
    if l == "true" {
      assert |x| == 4;
      assert LowerAscii(x[0]) == 't' && LowerAscii(x[1]) == 'r';
      assert LowerAscii(x[2]) == 'u' && LowerAscii(x[3]) == 'e';
    }
  }

  /** When the flag is set, the variable is "true" in some case with only
      white space around it; the witnesses are where `Trim` cuts. */
  lemma FlagMeansPaddedTrue(v: string) returns (i: nat, j: nat)
    requires IsRunningInContainer(Some(v))
    ensures i <= j <= |v| && AllWhiteSpace(v[..i]) && AllWhiteSpace(v[j..])
    ensures IsTrueInAnyCase(v[i..j])
  {
    i, j := TrimBounds(v);
    LowerOfTrueInAnyCase(Trim(v));
  }

  /** `v` is "true", in any case, with nothing but white space around it. */
  predicate IsPaddedTrue(v: string) {
    exists i, j :: (0 <= i <= j <= |v| && AllWhiteSpace(v[..i]) && AllWhiteSpace(v[j..])
                    && IsTrueInAnyCase(v[i..j]))
  }

  /** A split of `v` into white space, "true" and white space sets the flag. */
  lemma PaddedSplitSetsFlag(v: string, i: nat, j: nat)
    requires i <= j <= |v| && AllWhiteSpace(v[..i]) && AllWhiteSpace(v[j..])
    requires IsTrueInAnyCase(v[i..j])
    ensures IsRunningInContainer(Some(v))
  {
    assert v == v[..i] + v[i..j] + v[j..];
    PaddedTrueSetsFlag(v[..i], v[i..j], v[j..]);
  }

  /** The flag is set exactly when the variable is "true", in any case,
      with nothing but white space around it. */
  lemma IsRunningInContainerExactly(v: string)
    ensures IsRunningInContainer(Some(v)) <==> IsPaddedTrue(v)
  {
    if IsRunningInContainer(Some(v)) {
      var i, j := FlagMeansPaddedTrue(v);
      assert 0 <= i <= j <= |v| && AllWhiteSpace(v[..i]) && AllWhiteSpace(v[j..])
        && IsTrueInAnyCase(v[i..j]);
    }
    if IsPaddedTrue(v) {
      var i, j :| 0 <= i <= j <= |v| && AllWhiteSpace(v[..i]) && AllWhiteSpace(v[j..])
                  && IsTrueInAnyCase(v[i..j]);
      PaddedSplitSetsFlag(v, i, j);
    }
  }

  /** A value with no white space at either end that is not "true" in some
      case leaves the flag clear. */
  lemma UnpaddedOtherValueNotContainer(x: string)
    requires x != [] && !IsWhiteSpace(x[0]) && !IsWhiteSpace(x[|x| - 1])
    requires !IsTrueInAnyCase(x)
    ensures !IsRunningInContainer(Some(x))
  {
    TrimsLeaveAlone(x);
    LowerOfTrueInAnyCase(x);
  }

  /** Other values leave the flag clear: an unset variable, "1", "yes", "false". */
  lemma OtherValuesAreNotContainers(v: string)
    requires v == "1" || v == "yes" || v == "false"
    ensures !IsRunningInContainer(None)
    ensures !IsRunningInContainer(Some(v))
  {
    UnpaddedOtherValueNotContainer(v);
  }

  /** The `FirstOrDefault` of `GetFirstAccesibleContainerIpAddress` over a
      given address list: the first IPv4 (`InterNetwork`) entry, or null. */
  function FirstInterNetwork(addresses: seq<IpAddress>): (r: Option<IpAddress>)
    ensures r.None? <==> forall k :: 0 <= k < |addresses| ==> addresses[k].family != InterNetwork
    ensures r.Some? ==> r.value.family == InterNetwork
    ensures r.Some? ==> exists k :: (0 <= k < |addresses| && addresses[k] == r.value
      && forall m :: 0 <= m < k ==> addresses[m].family != InterNetwork)
    decreases |addresses|
  {
    if addresses == [] then None
    else if addresses[0].family == InterNetwork then Some(addresses[0])
    else
      var r := FirstInterNetwork(addresses[1..]);
      assert r.Some? ==> exists k :: (1 <= k < |addresses| && addresses[k] == r.value
        && forall m :: 1 <= m < k ==> addresses[m].family != InterNetwork) by {
        if r.Some? {
          var k :| 0 <= k < |addresses[1..]| && addresses[1..][k] == r.value
            && forall m :: 0 <= m < k ==> addresses[1..][m].family != InterNetwork;
          assert addresses[k + 1] == r.value;
          forall m | 1 <= m < k + 1 ensures addresses[m].family != InterNetwork {
            assert addresses[m] == addresses[1..][m - 1];
          }
        }
      }
      r
  }
}

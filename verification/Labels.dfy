/** The application name read from the labels of the upstream service, whatever the order of the map. */
module Labels {
  const APP := "app"
  const RELEASE := "release"

  predicate At(s: string, part: string, i: nat) {
    i + |part| <= |s| && s[i..i + |part|] == part
  }

  /** The first place where `part` occurs in `s`, or -1. */
  function Find(s: string, part: string): (i: int)
    requires part != ""
    ensures -1 <= i
    ensures 0 <= i ==> At(s, part, i)
  {
    if |s| < |part| then -1
    else if At(s, part, 0) then 0
    else
      var i := Find(s[1..], part);
      if i < 0 then -1
      else
        assert s[1..][i..i + |part|] == s[i + 1..i + 1 + |part|];
        i + 1
  }

  lemma {:induction false} FindIsFirst(s: string, part: string, j: nat)
    requires part != "" && At(s, part, j)
    ensures 0 <= Find(s, part) <= j
  {
    if !At(s, part, 0) {
      assert s[1..][j - 1..j - 1 + |part|] == s[j..j + |part|];
      FindIsFirst(s[1..], part, j - 1);
    }
  }

  /** Go's strings.Replace(s, part, "", 1). */
  function RemoveFirst(s: string, part: string): string
    requires part != ""
  {
    var i := Find(s, part);
    if i < 0 then s else s[..i] + s[i + |part|..]
  }

  /** Wherever the first occurrence is, it is taken out, and what is before and after it stays. */
  lemma RemovesTheFirst(a: string, part: string, b: string)
    requires part != "" && forall j {:trigger At(a + part + b, part, j)} :: 0 <= j < |a| ==> !At(a + part + b, part, j)
    ensures RemoveFirst(a + part + b, part) == a + b
  {
    var s := a + part + b;
    assert s[|a|..|a| + |part|] == part;
    FindIsFirst(s, part, |a|);
    assert At(s, part, Find(s, part));
    assert s[..|a|] == a && s[|a| + |part|..] == b;
  }

  lemma RemovesNothing(s: string, part: string)
    requires part != "" && forall j :: 0 <= j <= |s| - |part| ==> !At(s, part, j)
    ensures RemoveFirst(s, part) == s
  {
  }

  /** The name, when the map's order visits the app label before the release label (`appFirst`) or after it. */
  function AppName(name: string, labels: map<string, string>, appFirst: bool): string {
    var app := if APP in labels then labels[APP] else "";
    var release := if RELEASE in labels && !(APP in labels && appFirst) then labels[RELEASE] else "";
    Choose(name, app, release)
  }

  function Choose(name: string, app: string, release: string): string {
    if app != "" then app else if release != "" then RemoveFirst(name, release + "-") else name
  }

  /** The loop over the labels, which the app label ends early. */
  method GetAppName(name: string, labels: map<string, string>, appFirst: bool) returns (r: string)
    ensures r == AppName(name, labels, appFirst)
  {
    var app, release := "", "";
    var left := labels.Keys;
    while left != {}
      invariant left <= labels.Keys
      invariant app == "" && (APP in labels ==> APP in left)
      invariant RELEASE in left ==> release == ""
      invariant RELEASE !in left && RELEASE in labels ==> release == labels[RELEASE] && (APP in labels ==> !appFirst)
      invariant RELEASE !in labels ==> release == ""
      decreases left
    {
      var k := Next(left, appFirst);
      left := left - {k};
      if k == APP {
        app := labels[k];
        break;
      }
      if k == RELEASE {
        release := labels[k];
      }
    }
    r := Choose(name, app, release);
  }

  /** The map's choice of the next label: any, but for which of the two labels comes first. */
  method Next(left: set<string>, appFirst: bool) returns (k: string)
    requires left != {}
    ensures k in left
    ensures k == APP && RELEASE in left ==> appFirst
    ensures k == RELEASE && APP in left ==> !appFirst
  {
    k :| k in left;
    if k == APP && RELEASE in left && !appFirst {
      k := RELEASE;
    } else if k == RELEASE && APP in left && appFirst {
      k := APP;
    }
  }

  // ---------- every order of the labels ----------

  ghost predicate Enumerates(order: seq<string>, labels: map<string, string>) {
    && (forall k :: k in order <==> k in labels)
    && (forall i, j :: 0 <= i < j < |order| ==> order[i] != order[j])
  }

  /** The name chosen by visiting the labels in the given order. */
  function Along(order: seq<string>, labels: map<string, string>, name: string, release: string): string
    requires forall k :: k in order ==> k in labels
  {
    if order == [] then Choose(name, "", release)
    else if order[0] == APP then Choose(name, labels[APP], release)
    else Along(order[1..], labels, name, if order[0] == RELEASE then labels[RELEASE] else release)
  }

  predicate AppFirst(order: seq<string>) {
    order != [] && order[0] != RELEASE && (order[0] == APP || AppFirst(order[1..]))
  }

  lemma {:induction false} AlongIs(order: seq<string>, labels: map<string, string>, name: string, release: string)
    requires forall k :: k in order ==> k in labels
    requires forall i, j :: 0 <= i < j < |order| ==> order[i] != order[j]
    ensures Along(order, labels, name, release) ==
            Choose(name, if APP in order then labels[APP] else "",
                   if RELEASE in order && !AppFirst(order) then labels[RELEASE] else release)
  {
    if order != [] {
      assert order == [order[0]] + order[1..];
      AlongIs(order[1..], labels, name, if order[0] == RELEASE then labels[RELEASE] else release);
      if order[0] == APP && RELEASE in order {
        assert AppFirst(order);
      }
    }
  }

  lemma {:induction false} AppFirstNeedsApp(order: seq<string>)
    ensures AppFirst(order) ==> APP in order
  {
    if order != [] {
      AppFirstNeedsApp(order[1..]);
    }
  }

  /** For every enumeration of the labels the loop's result is the name of that order of the two labels. */
  lemma EveryOrder(order: seq<string>, labels: map<string, string>, name: string)
    requires Enumerates(order, labels)
    ensures Along(order, labels, name, "") == AppName(name, labels, AppFirst(order))
  {
    AlongIs(order, labels, name, "");
    AppFirstNeedsApp(order);
  }

  /** The only case in which the order shows. */
  predicate OrderShows(name: string, labels: map<string, string>) {
    && "app" in labels && labels["app"] == "" && "release" in labels && labels["release"] != ""
    && Find(name, labels["release"] + "-") >= 0
  }

  lemma OrderIndependent(name: string, labels: map<string, string>)
    ensures AppName(name, labels, true) == AppName(name, labels, false) <==> !OrderShows(name, labels)
  {
    if OrderShows(name, labels) {
      assert |RemoveFirst(name, labels[RELEASE] + "-")| < |name|;
    }
  }

  /** What the labels are for: an app label wins, and a release prefix is cut off. */
  lemma ConventionalNames(release: string, x: string, labels: map<string, string>, appFirst: bool)
    requires release != ""
    ensures "app" in labels && labels["app"] != "" ==> AppName(x, labels, appFirst) == labels["app"]
    ensures "app" !in labels && "release" in labels && labels["release"] == release ==>
              && AppName(x, labels, appFirst) == RemoveFirst(x, release + "-")
              && AppName(release + "-" + x, labels, appFirst) == x
    ensures "app" !in labels && ("release" !in labels || labels["release"] == "") ==> AppName(x, labels, appFirst) == x
  {
    FindIsFirst(release + "-" + x, release + "-", 0);
    assert (release + "-" + x)[|release + "-"|..] == x;
  }
}

/**
 * The resource library (src/components/Resources.tsx): a fixed table of
 * twelve resources, the tab filter that selects what is listed, and the card
 * background class per resource type. Card icons are JSX elements and are
 * not modelled.
 */
module Resources {
  import opened Wrappers

  /** `ResourceType`; `All` is the tab value that selects every resource. */
  datatype ResourceType = All | Guides | Audio | Blog | Downloads | Images

  datatype Resource = Resource(id: string, title: string, description: string,
                               resourceType: ResourceType, url: string, date: Option<string>)

  /** The `resources` table, in display order. */
  const RESOURCES: seq<Resource> := [
    Resource("1", "5-Minute Breathing Exercise",
             "A simple guide to calm your mind through controlled breathing", Guides,
             "https://www.mindful.org/a-five-minute-breathing-meditation/", None),
    Resource("2", "Mindfulness at Work",
             "How to stay centered during high-pressure work situations", Blog,
             "https://hbr.org/2017/03/mindfulness-works-but-only-if-you-work-at-it", Some("May 2, 2025")),
    Resource("3", "Calming Ocean Waves",
             "10-minute audio for relaxation and stress relief", Audio,
             "https://www.youtube.com/watch?v=V-_O7nl0Ii0", None),
    Resource("4", "MindEase Headband User Guide",
             "Comprehensive PDF guide to get the most from your device", Downloads,
             "https://www.pdfdrive.com/meditation-for-stress-management-e186826428.html", None),
    Resource("5", "Progressive Muscle Relaxation",
             "Learn to release tension in each muscle group", Guides,
             "https://www.healthline.com/health/progressive-muscle-relaxation", None),
    Resource("6", "Forest Serenity",
             "Calming image of a misty forest path", Images,
             "https://unsplash.com/photos/green-trees-during-daytime-1FxMET2U5dU", None),
    Resource("7", "The Science of Stress",
             "Understanding how stress affects your body and mind", Blog,
             "https://www.health.harvard.edu/staying-healthy/understanding-the-stress-response",
             Some("April 15, 2025")),
    Resource("8", "Guided Meditation Session",
             "20-minute audio journey to deep relaxation", Audio,
             "https://www.youtube.com/watch?v=O-6f5wQXSu8", None),
    Resource("9", "Quick Start Guide",
             "Get started with your MindEase headband in minutes", Downloads,
             "https://www.mindfulness.org/wp-content/uploads/2016/04/Beginning-a-mindfulness-practice.pdf", None),
    Resource("10", "Ocean Sunset",
             "Beautiful calming ocean sunset view", Images,
             "https://unsplash.com/photos/silhouette-of-horizon-during-golden-hour-AiwcbsHHPRw", None),
    Resource("11", "Stress Relief at Home",
             "Creating a sanctuary in your living space", Blog,
             "https://www.mayoclinic.org/healthy-lifestyle/stress-management/in-depth/stress-relief/art-20044456",
             Some("March 28, 2025")),
    Resource("12", "Mountain Lake",
             "Peaceful mountain lake at dawn", Images,
             "https://unsplash.com/photos/body-of-water-surrounded-by-trees-70Rir5vB96U", None)
  ]

  /** `resources.filter(resource => resource.type === t)`. */
  function FilterByType(rs: seq<Resource>, t: ResourceType): (r: seq<Resource>)
    ensures |r| <= |rs|
    ensures forall x :: x in r ==> x in rs && x.resourceType == t
  {
    if rs == [] then []
    else if rs[0].resourceType == t then [rs[0]] + FilterByType(rs[1..], t)
    else FilterByType(rs[1..], t)
  }

  /** `filteredResources`: the whole list for the All tab, otherwise the
      resources of the selected type. */
  function FilteredResources(tab: ResourceType, rs: seq<Resource>): (r: seq<Resource>)
    ensures tab == All ==> r == rs
    ensures |r| <= |rs|
  {
    if tab == All then rs else FilterByType(rs, tab)
  }

  /** The default card background. */
  const DEFAULT_BG: string := "bg-white hover:bg-gray-50"

  /** `getBgColor`: the card background class of a resource type. */
  function GetBgColor(t: ResourceType): (c: string)
    ensures c == DEFAULT_BG <==> t == All
  {
    match t
    case Guides => "bg-blue-50 hover:bg-blue-100"
    case Audio => "bg-purple-50 hover:bg-purple-100"
    case Blog => "bg-neutral-50 hover:bg-neutral-100"
    case Downloads => "bg-green-50 hover:bg-green-100"
    case Images => "bg-amber-50 hover:bg-amber-100"
    case All => DEFAULT_BG
  }

  /** `a` is `b` with some elements left out and the rest in their order. */
  ghost predicate IsSubsequence(a: seq<Resource>, b: seq<Resource>)
    decreases |b|
  {
    if a == [] then true
    else if b == [] then false
    else (a[0] == b[0] && IsSubsequence(a[1..], b[1..])) || IsSubsequence(a, b[1..])
  }

  /** Number of resources of type `t`. */
  function CountOfType(rs: seq<Resource>, t: ResourceType): nat
  {
    if rs == [] then 0 else (if rs[0].resourceType == t then 1 else 0) + CountOfType(rs[1..], t)
  }

  /** Every resource in `rs` has a concrete type. */
  predicate NoAllTyped(rs: seq<Resource>)
  {
    forall i :: 0 <= i < |rs| ==> rs[i].resourceType != All
  }

  // ---------------------------------------------------------------------------
  // Properties of the filter

  /** Filtering keeps the original order. */
  lemma {:induction false} FilterIsSubsequence(rs: seq<Resource>, t: ResourceType)
    ensures IsSubsequence(FilterByType(rs, t), rs)
  {
    if rs != [] {
      FilterIsSubsequence(rs[1..], t);
      if rs[0].resourceType != t {
        var f := FilterByType(rs[1..], t);
        if f != [] {
          assert IsSubsequence(f, rs[1..]);
        }
      }
    }
  }

  /** Filtering keeps exactly the resources of the tab's type, each as often
      as it occurs. */
  lemma {:induction false} FilterKeepsExactlyMatching(rs: seq<Resource>, t: ResourceType)
    ensures forall x :: multiset(FilterByType(rs, t))[x] == if x.resourceType == t then multiset(rs)[x] else 0
  {
    if rs != [] {
      FilterKeepsExactlyMatching(rs[1..], t);
      assert rs == [rs[0]] + rs[1..];
    }
  }

  /** A type the list does not contain filters it to nothing. */
  lemma {:induction false} FilterOfAbsentType(rs: seq<Resource>, t: ResourceType)
    requires forall i :: 0 <= i < |rs| ==> rs[i].resourceType != t
    ensures FilterByType(rs, t) == []
  {
    if rs != [] {
      FilterOfAbsentType(rs[1..], t);
    }
  }

  /** A list of one type filters to itself. */
  lemma {:induction false} FilterOfUniform(rs: seq<Resource>, t: ResourceType)
    requires forall i :: 0 <= i < |rs| ==> rs[i].resourceType == t
    ensures FilterByType(rs, t) == rs
  {
    if rs != [] {
      FilterOfUniform(rs[1..], t);
    }
  }

  /** Filtering twice by the same tab is filtering once. */
  lemma FilterIdempotent(tab: ResourceType, rs: seq<Resource>)
    ensures FilteredResources(tab, FilteredResources(tab, rs)) == FilteredResources(tab, rs)
  {
    if tab != All {
      var f := FilterByType(rs, tab);
      forall i | 0 <= i < |f| ensures f[i].resourceType == tab {
        assert f[i] in f;
      }
      FilterOfUniform(f, tab);
    }
  }

  /** The filtered list's length is the count of the type. */
  lemma {:induction false} FilterLength(rs: seq<Resource>, t: ResourceType)
    ensures |FilterByType(rs, t)| == CountOfType(rs, t)
  {
    if rs != [] {
      FilterLength(rs[1..], t);
    }
  }

  /** The five concrete tabs split a list without All-typed entries. */
  lemma {:induction false} ConcreteTabsPartition(rs: seq<Resource>)
    requires NoAllTyped(rs)
    ensures |FilteredResources(Guides, rs)| + |FilteredResources(Audio, rs)| + |FilteredResources(Blog, rs)|
            + |FilteredResources(Downloads, rs)| + |FilteredResources(Images, rs)| == |rs|
  {
    if rs != [] {
      ConcreteTabsPartition(rs[1..]);
    }
  }

  /** The table has twelve entries of concrete types; every tab therefore
      lists at most twelve resources, and the five concrete tabs together
      list all of them. */
  lemma TableTabs(tab: ResourceType)
    ensures |RESOURCES| == 12 && NoAllTyped(RESOURCES)
    ensures |FilteredResources(tab, RESOURCES)| <= 12
    ensures |FilteredResources(Guides, RESOURCES)| + |FilteredResources(Audio, RESOURCES)|
            + |FilteredResources(Blog, RESOURCES)| + |FilteredResources(Downloads, RESOURCES)|
            + |FilteredResources(Images, RESOURCES)| == 12
  {
    ConcreteTabsPartition(RESOURCES);
  }

  // ---------------------------------------------------------------------------
  // Properties of the background classes

  /** The five concrete types get five different classes. */
  lemma BgColorsDistinct(t: ResourceType, u: ResourceType)
    requires t != u
    ensures GetBgColor(t) != GetBgColor(u)
  {
  }
}

/** The three searchable catalogues of the web front ends: the course modules of
    web/src/app/curriculum/page.tsx, the resources of web/src/app/resources/page.tsx and
    the assistive tools of websitedis/src/components/Tools.tsx. Each page filters a fixed
    list by a search box (and, for the last two, a selected category). */
module Catalogue {
  import opened Basics
  import opened JsText

  /** `text.toLowerCase().includes(query.toLowerCase())`. */
  predicate Matches(text: string, query: string)
  {
    Includes(ToLower(text), ToLower(query))
  }

  /** An empty search box matches every text. */
  lemma MatchesEmpty(text: string)
    ensures Matches(text, "")
  {
    assert ToLower("") == "";
    IncludesEmpty(ToLower(text));
  }

  // ----- Curriculum --------------------------------------------------------------------------

  datatype Reading = Reading(title: string, url: string)

  datatype CourseModule = CourseModule(title: string, description: string, topics: seq<string>,
                                       video: string, readings: seq<Reading>)

  const IntroVideo := "https://www.youtube.com/embed/dQw4w9WgXcQ"

  /** `modules`. */
  const Modules: seq<CourseModule> := [
    CourseModule(
      "Introduction to Disability Studies",
      "An overview of disability studies and its importance in society.",
      ["Historical perspectives on disability",
       "Models of disability: medical, social, and cultural",
       "Disability rights movement"],
      IntroVideo,
      [Reading("Disability Studies: An Introduction", "#"),
       Reading("The Social Model of Disability", "#")]),
    CourseModule(
      "Accessibility and Universal Design",
      "Understanding the principles of accessibility and universal design.",
      ["Principles of universal design", "Accessible web design", "Mobile accessibility"],
      IntroVideo,
      [Reading("Universal Design Principles", "#"),
       Reading("Web Content Accessibility Guidelines (WCAG) Overview", "#")]),
    CourseModule(
      "Assistive Technologies",
      "Exploring various assistive technologies and their applications.",
      ["Screen readers and text-to-speech",
       "Alternative input devices",
       "Augmentative and alternative communication (AAC)"],
      IntroVideo,
      [Reading("Introduction to Assistive Technologies", "#"),
       Reading("AAC Devices and Their Impact", "#")])
  ]

  /** `module.topics.some(topic => ...)`. */
  predicate SomeTopicMatches(topics: seq<string>, query: string)
  {
    exists i :: 0 <= i < |topics| && Matches(topics[i], query)
  }

  /** The title, the description or some topic holds the query; nothing else is searched. */
  predicate ModuleMatches(m: CourseModule, query: string)
  {
    Matches(m.title, query) || Matches(m.description, query) || SomeTopicMatches(m.topics, query)
  }

  /** `filteredModules`. */
  function SearchModules(modules: seq<CourseModule>, query: string): (r: seq<CourseModule>)
    ensures IsSubsequence(r, modules)
    ensures forall i :: 0 <= i < |modules| ==> (modules[i] in r <==> ModuleMatches(modules[i], query))
  {
    FilterIsSubsequence(modules, m => ModuleMatches(m, query));
    FilterMembers(modules, m => ModuleMatches(m, query));
    Filter(modules, m => ModuleMatches(m, query))
  }

  /** An empty search box lists every module. */
  lemma EmptySearchListsEveryModule(modules: seq<CourseModule>)
    ensures SearchModules(modules, "") == modules
  {
    forall i | 0 <= i < |modules|
      ensures ModuleMatches(modules[i], "")
    {
      MatchesEmpty(modules[i].title);
    }
    FilterAll(modules, m => ModuleMatches(m, ""));
  }

  /** Two queries that differ only in letter case find the same modules. */
  lemma ModuleSearchIgnoresCase(modules: seq<CourseModule>, q1: string, q2: string)
    requires ToLower(q1) == ToLower(q2)
    ensures SearchModules(modules, q1) == SearchModules(modules, q2)
  {
    FilterCongruent(modules, m => ModuleMatches(m, q1), m => ModuleMatches(m, q2));
  }

  /** Readings and videos are never searched: changing them changes no search result. */
  lemma ReadingsNotSearched(modules: seq<CourseModule>, others: seq<CourseModule>, query: string)
    requires |others| == |modules|
    requires forall i :: 0 <= i < |modules| ==>
      others[i] == modules[i].(video := others[i].video, readings := others[i].readings)
    ensures |SearchModules(others, query)| == |SearchModules(modules, query)|
    ensures forall i :: 0 <= i < |modules| ==>
      (others[i] in SearchModules(others, query) <==> modules[i] in SearchModules(modules, query))
  {
    SameFilterLength(modules, others, query);
  }

  lemma {:induction false} SameFilterLength(modules: seq<CourseModule>, others: seq<CourseModule>, query: string)
    requires |others| == |modules|
    requires forall i :: 0 <= i < |modules| ==>
      others[i] == modules[i].(video := others[i].video, readings := others[i].readings)
    ensures |Filter(others, m => ModuleMatches(m, query))| == |Filter(modules, m => ModuleMatches(m, query))|
    decreases |modules|
  {
    if modules != [] {
      assert others[0] == modules[0].(video := others[0].video, readings := others[0].readings);
      SameFilterLength(modules[1..], others[1..], query);
    }
  }

  // ----- Resources ---------------------------------------------------------------------------

  datatype Resource = Resource(name: string, description: string, link: string, category: string)

  /** `resources`. */
  const Resources: seq<Resource> := [
    Resource("Web Accessibility Initiative (WAI)",
             "Strategies, standards, and resources to make the Web accessible to people with disabilities.",
             "https://www.w3.org/WAI/", "Guidelines"),
    Resource("A11Y Project",
             "A community-driven effort to make web accessibility easier.",
             "https://a11yproject.com/", "Community"),
    Resource("WebAIM",
             "Web accessibility resources, tools, and services.",
             "https://webaim.org/", "Tools"),
    Resource("Accessibility Developer Guide",
             "A comprehensive resource for developers to learn about web accessibility.",
             "https://www.accessibility-developer-guide.com/", "Learning"),
    Resource("WAVE Web Accessibility Evaluation Tool",
             "Tool for evaluating web accessibility.",
             "https://wave.webaim.org/", "Tools")
  ]

  /** `categories`: the choices of the category selector. */
  const Categories: seq<string> := ["All", "Guidelines", "Community", "Tools", "Learning"]

  /** `selectedCategory === 'All' || category === selectedCategory`. */
  predicate InCategory(category: string, selected: string)
  {
    selected == "All" || category == selected
  }

  /** The name or the description holds the query; never the link or the category. */
  predicate ResourceText(r: Resource, query: string)
  {
    Matches(r.name, query) || Matches(r.description, query)
  }

  /** `filteredResources`: the text test, then the category test. */
  function SearchResources(resources: seq<Resource>, query: string, selected: string): (r: seq<Resource>)
    ensures IsSubsequence(r, resources)
    ensures forall i :: 0 <= i < |resources| ==>
      (resources[i] in r <==> ResourceText(resources[i], query) && InCategory(resources[i].category, selected))
    ensures r == Filter(Filter(resources, (x: Resource) => ResourceText(x, query)), (x: Resource) => InCategory(x.category, selected))
  {
    var p := (x: Resource) => ResourceText(x, query) && InCategory(x.category, selected);
    FilterIsSubsequence(resources, p);
    FilterMembers(resources, p);
    FilterConjunction(resources, (x: Resource) => ResourceText(x, query), (x: Resource) => InCategory(x.category, selected), p);
    Filter(resources, p)
  }

  /** On first load (category "All", empty search) the page lists all five resources. */
  lemma ResourcesOnFirstLoad()
    ensures SearchResources(Resources, "", "All") == Resources
    ensures |SearchResources(Resources, "", "All")| == 5
  {
    forall i | 0 <= i < |Resources|
      ensures ResourceText(Resources[i], "") && InCategory(Resources[i].category, "All")
    {
      MatchesEmpty(Resources[i].name);
    }
    FilterAll(Resources, (x: Resource) => ResourceText(x, "") && InCategory(x.category, "All"));
  }

  /** Two queries that differ only in letter case find the same resources. */
  lemma ResourceSearchIgnoresCase(resources: seq<Resource>, q1: string, q2: string, selected: string)
    requires ToLower(q1) == ToLower(q2)
    ensures SearchResources(resources, q1, selected) == SearchResources(resources, q2, selected)
  {
    FilterCongruent(resources, (x: Resource) => ResourceText(x, q1) && InCategory(x.category, selected),
                    (x: Resource) => ResourceText(x, q2) && InCategory(x.category, selected));
  }

  // ----- Tools -------------------------------------------------------------------------------

  datatype Tool = Tool(name: string, description: string, link: string, category: string)

  /** `tools`. The descriptions are written as short pieces joined with `+`: one long string
      literal is slow for the solver to take apart, while short pieces are cheap. */
  const Tools: seq<Tool> := [
    Tool("Screen " + "Reader Plus",
         "Enhanced " + "screen " + "reader with " + "customizable " + "voices and " + "languages.", "#", "Visual"),
    Tool("ColorBlind " + "Assist",
         "Color " + "adjustment " + "tool for " + "various " + "types of " + "color " + "blindness.", "#", "Visual"),
    Tool("GestureControl",
         "Hands-free " + "computer " + "control " + "using " + "facial " + "gestures.", "#", "Motor"),
    Tool("EasyCaption",
         "Real-time " + "captioning " + "tool for " + "video and " + "audio " + "content.", "#", "Auditory"),
    Tool("AccessibleForms",
         "Library for " + "creating " + "fully " + "accessible " + "web forms.", "#", "Cognitive"),
    Tool("NavigateEase",
         "Keyboard " + "navigation " + "enhancement " + "for web " + "applications.", "#", "Motor")
  ]

  predicate ToolText(t: Tool, query: string)
  {
    Matches(t.name, query) || Matches(t.description, query)
  }

  /** `filteredTools`: the category test, then the text test. */
  function SearchTools(tools: seq<Tool>, query: string, selected: string): (r: seq<Tool>)
    ensures IsSubsequence(r, tools)
    ensures forall i :: 0 <= i < |tools| ==>
      (tools[i] in r <==> InCategory(tools[i].category, selected) && ToolText(tools[i], query))
    ensures r == Filter(Filter(tools, (x: Tool) => InCategory(x.category, selected)), (x: Tool) => ToolText(x, query))
  {
    var p := (x: Tool) => InCategory(x.category, selected) && ToolText(x, query);
    FilterIsSubsequence(tools, p);
    FilterMembers(tools, p);
    FilterConjunction(tools, (x: Tool) => InCategory(x.category, selected), (x: Tool) => ToolText(x, query), p);
    Filter(tools, p)
  }

  /** The category test alone: the first conjunct of the `filteredTools` predicate, which
      keeps a tool when the selected category is 'All' or equals the tool's category. */
  function ByCategory(tools: seq<Tool>, selected: string): (r: seq<Tool>)
    ensures forall t :: t in r ==> InCategory(t.category, selected)
  {
    FilterMembers(tools, (x: Tool) => InCategory(x.category, selected));
    Filter(tools, (x: Tool) => InCategory(x.category, selected))
  }

  lemma ByCategoryCons(t: Tool, tools: seq<Tool>, selected: string)
    ensures ByCategory([t] + tools, selected)
            == (if InCategory(t.category, selected) then [t] else []) + ByCategory(tools, selected)
  {
    assert ([t] + tools)[1..] == tools;
  }

  /** With an empty search box only the category decides. */
  lemma EmptySearchOnlyCategory(tools: seq<Tool>, selected: string)
    ensures SearchTools(tools, "", selected) == ByCategory(tools, selected)
  {
    forall i | 0 <= i < |tools|
      ensures ToolText(tools[i], "")
    {
      MatchesEmpty(tools[i].name);
    }
    var cat := ByCategory(tools, selected);
    FilterMembers(tools, (x: Tool) => InCategory(x.category, selected));
    FilterAll(cat, (x: Tool) => ToolText(x, ""));
  }

  /** On first load the page lists all six tools. */
  lemma ToolsOnFirstLoad()
    ensures SearchTools(Tools, "", "All") == Tools
    ensures |SearchTools(Tools, "", "All")| == 6
  {
    EmptySearchOnlyCategory(Tools, "All");
    FilterAll(Tools, (x: Tool) => InCategory(x.category, "All"));
  }

  /** Of six tools whose categories are those of the catalogue, the third and the sixth are
      the motor tools. */
  lemma MotorOfSix(t0: Tool, t1: Tool, t2: Tool, t3: Tool, t4: Tool, t5: Tool)
    requires t0.category == "Visual" && t1.category == "Visual" && t2.category == "Motor"
    requires t3.category == "Auditory" && t4.category == "Cognitive" && t5.category == "Motor"
    ensures ByCategory([t0, t1, t2, t3, t4, t5], "Motor") == [t2, t5]
  {
    var s5 := [t5] + [];
    var s4 := [t4] + s5;
    var s3 := [t3] + s4;
    var s2 := [t2] + s3;
    var s1 := [t1] + s2;
    assert [t0, t1, t2, t3, t4, t5] == [t0] + s1;
    ByCategoryCons(t5, [], "Motor");
    assert ByCategory(s5, "Motor") == [t5];
    ByCategoryCons(t4, s5, "Motor");
    ByCategoryCons(t3, s4, "Motor");
    assert ByCategory(s3, "Motor") == [t5];
    ByCategoryCons(t2, s3, "Motor");
    assert ByCategory(s2, "Motor") == [t2, t5];
    ByCategoryCons(t1, s2, "Motor");
    ByCategoryCons(t0, s1, "Motor");
  }

  /** The categories of the six tools. */
  lemma ToolCategories()
    ensures |Tools| == 6
    ensures Tools[0].category == "Visual" && Tools[1].category == "Visual"
    ensures Tools[2].category == "Motor" && Tools[3].category == "Auditory"
    ensures Tools[4].category == "Cognitive" && Tools[5].category == "Motor"
  {
  }

  /** Selecting "Motor" lists GestureControl and NavigateEase, in that order. */
  lemma MotorTools()
    ensures SearchTools(Tools, "", "Motor") == [Tools[2], Tools[5]]
    ensures Tools[2].name == "GestureControl" && Tools[5].name == "NavigateEase"
  {
    EmptySearchOnlyCategory(Tools, "Motor");
    ToolCategories();
    assert Tools == [Tools[0], Tools[1], Tools[2], Tools[3], Tools[4], Tools[5]];
    MotorOfSix(Tools[0], Tools[1], Tools[2], Tools[3], Tools[4], Tools[5]);
  }
}

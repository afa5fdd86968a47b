/** The parent POM of the `parentJava` publication: the two `pom.withXml` callbacks, the packaging and
    the one extra property set in lg5-spring-parent/build.gradle.kts, and Gradle's running of the
    registered callbacks, in registration order, against the generated POM's root node. */
module Pom {
  import opened Wrappers
  import opened Trees
  import opened Catalog
  import opened Xml
  import F = Fragments
  import B = Builders

  // ---- the first callback: `parent` ----

  /** The first `withXml` callback: `asNode().appendNode("parent").apply { ... }`. */
  method AppendParent(root: Node, libs: Libs)
    requires root.Valid()
    modifies root
    ensures root.Valid() && fresh(root.Repr - old(root.Repr))
    ensures root.Value == Tree(root.name, root.text, old(root.Value.children) + [F.Parent(libs)])
  {
    ghost var kids := root.Value.children;
    var parent := root.AppendNode("parent", None);
    ParentBlock(parent, libs);
    assert parent.Value == F.Parent(libs);
    root.Adopt(parent, kids);
  }

  method ParentBlock(parent: Node, libs: Libs)
    requires parent.Valid()
    modifies parent
    ensures parent.Valid() && fresh(parent.Repr - old(parent.Repr))
    ensures parent.Value == Tree(parent.name, parent.text, old(parent.Value.children) + F.Parent(libs).children)
  {
    var _ := parent.AppendNode("groupId", Some(libs.springbootParent.group));
    var _ := parent.AppendNode("artifactId", Some(libs.springbootParent.name));
    var _ := parent.AppendNode("version", Some(libs.springbootVersion));
    // `appendNode("relativePath")` passes no value: the element is empty.
    var _ := parent.AppendNode("relativePath", None);
  }

  // ---- the second callback: `build`, then `profiles` ----

  method AppendBuild(root: Node, libs: Libs)
    requires root.Valid()
    modifies root
    ensures root.Valid() && fresh(root.Repr - old(root.Repr))
    ensures root.Value == Tree(root.name, root.text, old(root.Value.children) + [F.Build(libs)])
  {
    ghost var kids := root.Value.children;
    var build := root.AppendNode("build", None);
    BuildBlock(build, libs);
    assert build.Value == F.Build(libs);
    root.Adopt(build, kids);
  }

  method BuildBlock(build: Node, libs: Libs)
    requires build.Valid()
    modifies build
    ensures build.Valid() && fresh(build.Repr - old(build.Repr))
    ensures build.Value == Tree(build.name, build.text, old(build.Value.children) + F.Build(libs).children)
  {
    AppendPluginManagement(build, libs);
    AppendBoundPlugins(build, libs);
  }

  method AppendPluginManagement(build: Node, libs: Libs)
    requires build.Valid()
    modifies build
    ensures build.Valid() && fresh(build.Repr - old(build.Repr))
    ensures build.Value == Tree(build.name, build.text, old(build.Value.children) + [F.PluginManagement(libs)])
  {
    ghost var kids := build.Value.children;
    var pluginManagement := build.AppendNode("pluginManagement", None);
    AppendManagedPlugins(pluginManagement, libs);
    assert pluginManagement.Value == F.PluginManagement(libs);
    build.Adopt(pluginManagement, kids);
  }

  method AppendManagedPlugins(pluginManagement: Node, libs: Libs)
    requires pluginManagement.Valid()
    modifies pluginManagement
    ensures pluginManagement.Valid() && fresh(pluginManagement.Repr - old(pluginManagement.Repr))
    ensures pluginManagement.Value == Tree(pluginManagement.name, pluginManagement.text, old(pluginManagement.Value.children) + [F.ManagedPluginsElement(libs)])
  {
    ghost var kids := pluginManagement.Value.children;
    var plugins := pluginManagement.AppendNode("plugins", None);
    ManagedPluginsBlock(plugins, libs);
    assert plugins.Value == F.ManagedPluginsElement(libs);
    pluginManagement.Adopt(plugins, kids);
  }

  method ManagedPluginsBlock(plugins: Node, libs: Libs)
    requires plugins.Valid()
    modifies plugins
    ensures plugins.Valid() && fresh(plugins.Repr - old(plugins.Repr))
    ensures plugins.Value == Tree(plugins.name, plugins.text, old(plugins.Value.children) + F.ManagedPlugins(libs))
  {
    B.AvroPlugin(plugins, libs);
    B.JibMavenPlugin(plugins, libs);
    B.SpringBootMavenBuildImagePlugin(plugins, libs);
  }

  method AppendBoundPlugins(build: Node, libs: Libs)
    requires build.Valid()
    modifies build
    ensures build.Valid() && fresh(build.Repr - old(build.Repr))
    ensures build.Value == Tree(build.name, build.text, old(build.Value.children) + [F.BoundPluginsElement(libs)])
  {
    ghost var kids := build.Value.children;
    var plugins := build.AppendNode("plugins", None);
    BoundPluginsBlock(plugins, libs);
    assert plugins.Value == F.BoundPluginsElement(libs);
    build.Adopt(plugins, kids);
  }

  method BoundPluginsBlock(plugins: Node, libs: Libs)
    requires plugins.Valid()
    modifies plugins
    ensures plugins.Valid() && fresh(plugins.Repr - old(plugins.Repr))
    ensures plugins.Value == Tree(plugins.name, plugins.text, old(plugins.Value.children) + F.BoundPlugins(libs))
  {
    B.MavenCompilerPlugin(plugins, libs);
    B.JacocoPlugin(plugins, libs);
    B.MavenCheckstylePlugin(plugins, libs);
  }
  // ---- callbacks, registration and generation ----

  /** A callback registered with `pom.withXml { ... }`. */
  datatype XmlAction =
    | ParentCallback   // the first block: `parent`
    | BuildCallback    // the second block: `build`, then `profiles`

  /** What one callback appends to the root. */
  function CallbackOutput(a: XmlAction, libs: Libs): seq<Tree> {
    match a
    case ParentCallback => [F.Parent(libs)]
    case BuildCallback => [F.Build(libs), F.Profiles()]
  }

  /** What the registered callbacks append to the root when run one after the other. */
  function Output(actions: seq<XmlAction>, libs: Libs): seq<Tree>
    decreases |actions|
  {
    if |actions| == 0 then []
    else Output(actions[..|actions| - 1], libs) + CallbackOutput(actions[|actions| - 1], libs)
  }

  /** The second `withXml` callback: `asNode().appendNode("build").apply { ... }` and then
      `asNode().profiles()`, both against the root. */
  method AppendBuildAndProfiles(root: Node, libs: Libs)
    requires root.Valid()
    modifies root
    ensures root.Valid() && fresh(root.Repr - old(root.Repr))
    ensures root.Value == Tree(root.name, root.text, old(root.Value.children) + [F.Build(libs), F.Profiles()])
  {
    AppendBuild(root, libs);
    B.Profiles(root);
  }

  /** Runs one registered callback against the root. */
  method RunCallback(root: Node, a: XmlAction, libs: Libs)
    requires root.Valid()
    modifies root
    ensures root.Valid() && fresh(root.Repr - old(root.Repr))
    ensures root.Value == Tree(root.name, root.text, old(root.Value.children) + CallbackOutput(a, libs))
  {
    match a
    case ParentCallback => AppendParent(root, libs);
    case BuildCallback => AppendBuildAndProfiles(root, libs);
  }

  /** The part of Gradle's `MavenPom` that the `parentJava` publication configures: the packaging, the
      extra properties and the `withXml` callbacks in registration order. */
  class MavenPom {
    var packaging: Option<string>
    var properties: map<string, string>
    var xmlActions: seq<XmlAction>

    /** A POM nobody has configured yet. */
    constructor ()
      ensures packaging == None && properties == map[] && xmlActions == []
    {
      packaging := None;
      properties := map[];
      xmlActions := [];
    }

    /** `pom.withXml { ... }`: registers a callback after those already registered; it runs later. */
    method WithXml(a: XmlAction)
      modifies this
      ensures xmlActions == old(xmlActions) + [a]
      ensures packaging == old(packaging) && properties == old(properties)
    {
      xmlActions := xmlActions + [a];
    }

    /** `pom.packaging = p`. */
    method SetPackaging(p: string)
      modifies this
      ensures packaging == Some(p)
      ensures properties == old(properties) && xmlActions == old(xmlActions)
    {
      packaging := Some(p);
    }

    /** `pom.properties.put(key, value)`: adds the property or replaces its earlier value. */
    method PutProperty(key: string, value: string)
      modifies this
      ensures properties == old(properties)[key := value]
      ensures packaging == old(packaging) && xmlActions == old(xmlActions)
    {
      properties := properties[key := value];
    }
  }

  /** The value of the `lg5.version` property: a reference that Maven resolves to the parent's version. */
  const Lg5VersionValue: string := "${project.parent.version}"

  /** The body of `create<MavenPublication>("parentJava") { ... }` as far as the POM goes, in the
      order the script gives its statements. */
  method ConfigureParentJava(pom: MavenPom)
    modifies pom
    ensures pom.xmlActions == old(pom.xmlActions) + [ParentCallback, BuildCallback]
    ensures pom.packaging == Some("pom")
    ensures pom.properties == old(pom.properties)["lg5.version" := Lg5VersionValue]
  {
    pom.WithXml(ParentCallback);
    pom.SetPackaging("pom");
    pom.PutProperty("lg5.version", Lg5VersionValue);
    pom.WithXml(BuildCallback);
  }

  /** Gradle's POM generation as far as the callbacks go: every registered callback runs, in
      registration order, against the root node, after whatever the generator already put there. */
  method RunXmlActions(pom: MavenPom, root: Node, libs: Libs)
    requires root.Valid()
    modifies root
    ensures root.Valid() && fresh(root.Repr - old(root.Repr))
    ensures root.Value == Tree(root.name, root.text, old(root.Value.children) + Output(pom.xmlActions, libs))
  {
    var actions := pom.xmlActions;
    ghost var start := root.Value.children;
    var i := 0;
    while i < |actions|
      invariant 0 <= i <= |actions|
      invariant root.Valid() && fresh(root.Repr - old(root.Repr))
      invariant root.Value == Tree(root.name, root.text, start + Output(actions[..i], libs))
    {
      RunCallback(root, actions[i], libs);
      assert actions[..i + 1][..i] == actions[..i];
      i := i + 1;
    }
    assert actions[..i] == actions;
  }

  /** Registering more callbacks only appends their output after what the earlier ones append. */
  lemma {:induction false} OutputConcat(first: seq<XmlAction>, later: seq<XmlAction>, libs: Libs)
    ensures Output(first + later, libs) == Output(first, libs) + Output(later, libs)
    decreases |later|
  {
    if |later| == 0 {
      assert first + later == first;
    } else {
      var init := later[..|later| - 1];
      assert (first + later)[..|first + later| - 1] == first + init;
      assert (first + later)[|first + later| - 1] == later[|later| - 1];
      OutputConcat(first, init, libs);
    }
  }

  /** The callbacks of the `parentJava` publication append its additions, and only those. */
  lemma ParentJavaOutput(libs: Libs)
    ensures Output([ParentCallback, BuildCallback], libs) == F.PomAdditions(libs)
  {
    assert [ParentCallback, BuildCallback][..1] == [ParentCallback];
    assert [ParentCallback][..0] == [];
  }

  /** Configures a fresh `parentJava` POM and generates it on an empty `project` root. */
  method BuildParentPom(libs: Libs) returns (pom: MavenPom, root: Node)
    ensures fresh(pom) && fresh(root) && root.Valid()
    ensures pom.packaging == Some("pom") && pom.properties == map["lg5.version" := Lg5VersionValue]
    ensures root.name == "project" && root.Value == Tree("project", None, F.PomAdditions(libs))
  {
    pom := new MavenPom();
    ConfigureParentJava(pom);
    root := new Node("project", None);
    RunXmlActions(pom, root, libs);
    ParentJavaOutput(libs);
  }

  /** Building the parent POM twice from the same catalog gives two distinct trees with equal content. */
  method BuildTwice(libs: Libs) returns (first: Node, second: Node)
    ensures first != second && first.Valid() && second.Valid()
    ensures first.Value == second.Value == Tree("project", None, F.PomAdditions(libs))
  {
    var pom1, pom2;
    pom1, first := BuildParentPom(libs);
    pom2, second := BuildParentPom(libs);
  }
}

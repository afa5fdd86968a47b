/** What the appended subtrees hold, stated with the tree queries: composition order, plugin order,
    and the content of each fragment. */
module FragmentFacts {
  import opened Wrappers
  import opened Trees
  import opened Catalog
  import opened Fragments

  /** The `artifactId` text of each plugin in `plugins`, in order. */
  function ArtifactIds(plugins: seq<Tree>): (r: seq<Option<string>>)
    ensures |r| == |plugins|
    ensures forall i :: 0 <= i < |plugins| ==> r[i] == TextAt(plugins[i], ["artifactId"])
  {
    if plugins == [] then [] else [TextAt(plugins[0], ["artifactId"])] + ArtifactIds(plugins[1..])
  }

  /** The names of two trees. */
  lemma NamesOfTwo(a: Tree, b: Tree)
    ensures Names([a, b]) == [a.name, b.name]
  {
  }

  /** The names of three trees. */
  lemma NamesOfThree(a: Tree, b: Tree, c: Tree)
    ensures Names([a, b, c]) == [a.name, b.name, c.name]
  {
  }

  /** The artifact ids of three plugins. */
  lemma ArtifactIdsOfThree(a: Tree, b: Tree, c: Tree)
    ensures ArtifactIds([a, b, c]) == [TextAt(a, ["artifactId"]), TextAt(b, ["artifactId"]), TextAt(c, ["artifactId"])]
  {
  }

  // ---- composition ----

  /** The root receives `parent`, `build` and `profiles`, in that order, and inside `build`
      `pluginManagement` precedes `plugins`. */
  lemma PomOrder(libs: Libs)
    ensures Names(PomAdditions(libs)) == ["parent", "build", "profiles"]
    ensures Names(Build(libs).children) == ["pluginManagement", "plugins"]
  {
    NamesOfThree(Parent(libs), Build(libs), Profiles());
    NamesOfTwo(PluginManagement(libs), BoundPluginsElement(libs));
  }

  /** `parent` holds the Spring Boot parent's coordinates and an empty `relativePath`, and nothing else. */
  lemma ParentContent(libs: Libs)
    ensures Names(Parent(libs).children) == ["groupId", "artifactId", "version", "relativePath"]
    ensures Texts(Parent(libs).children)
         == [Some(libs.springbootParent.group), Some(libs.springbootParent.name), Some(libs.springbootVersion), None]
  {
  }

  /** `pluginManagement/plugins` holds the managed plugins. */
  lemma ManagedPluginsPlace(libs: Libs)
    ensures At(Build(libs), ["pluginManagement", "plugins"]) == Some(ManagedPluginsElement(libs))
  {
  }

  /** They are avro, jib and spring-boot, in that order. */
  lemma ManagedPluginsOrder(libs: Libs)
    ensures Names(ManagedPlugins(libs)) == ["plugin", "plugin", "plugin"]
    ensures ArtifactIds(ManagedPlugins(libs))
         == [Some(libs.avroPlugin.name), Some(libs.jibPlugin.name), Some("spring-boot-maven-plugin")]
  {
    NamesOfThree(AvroPlugin(libs), JibPlugin(libs), SpringBootPlugin(libs));
    ArtifactIdsOfThree(AvroPlugin(libs), JibPlugin(libs), SpringBootPlugin(libs));
    AvroCoordinates(libs);
    JibCoordinates(libs);
    SpringBootCoordinates(libs);
  }

  /** `build/plugins` holds the plugins bound to every build. */
  lemma BoundPluginsPlace(libs: Libs)
    ensures At(Build(libs), ["plugins"]) == Some(BoundPluginsElement(libs))
  {
    ChildIs(Build(libs), 1, "plugins");
  }

  /** They are compiler, jacoco and checkstyle, in that order. */
  lemma BoundPluginsOrder(libs: Libs)
    ensures Names(BoundPlugins(libs)) == ["plugin", "plugin", "plugin"]
    ensures ArtifactIds(BoundPlugins(libs))
         == [Some("maven-compiler-plugin"), Some("jacoco-maven-plugin"), Some(libs.checkstylePlugin.name)]
  {
    NamesOfThree(CompilerPlugin(libs), JacocoPlugin(libs), CheckstylePlugin(libs));
    ArtifactIdsOfThree(CompilerPlugin(libs), JacocoPlugin(libs), CheckstylePlugin(libs));
    CompilerCoordinates(libs);
    JacocoCoordinates(libs);
    CheckstyleCoordinates(libs);
  }

  // ---- mavenCompilerPlugin ----

  lemma CompilerCoordinates(libs: Libs)
    ensures TextAt(CompilerPlugin(libs), ["groupId"]) == Some("org.apache.maven.plugins")
    ensures TextAt(CompilerPlugin(libs), ["artifactId"]) == Some("maven-compiler-plugin")
    ensures TextAt(CompilerPlugin(libs), ["version"]) == Some(libs.mavenCompilerPluginVersion)
  {
    ChildIs(CompilerPlugin(libs), 1, "artifactId");
    ChildIs(CompilerPlugin(libs), 2, "version");
  }

  /** The compiler targets release 21, written as the text "21". */
  lemma CompilerRelease(libs: Libs)
    ensures TextAt(CompilerPlugin(libs), ["configuration", "release"]) == Some("21")
  {
    ChildIs(CompilerPlugin(libs), 3, "configuration");
  }

  // ---- jacocoPlugin ----

  lemma JacocoCoordinates(libs: Libs)
    ensures TextAt(JacocoPlugin(libs), ["groupId"]) == Some("org.jacoco")
    ensures TextAt(JacocoPlugin(libs), ["artifactId"]) == Some("jacoco-maven-plugin")
    ensures TextAt(JacocoPlugin(libs), ["version"]) == Some(libs.jacocoVersion)
  {
    ChildIs(JacocoPlugin(libs), 1, "artifactId");
    ChildIs(JacocoPlugin(libs), 2, "version");
  }

  /** `executions`, holding one execution, comes before `configuration`. */
  lemma JacocoLayout(libs: Libs)
    ensures Names(JacocoPlugin(libs).children) == ["groupId", "artifactId", "version", "executions", "configuration"]
    ensures At(JacocoPlugin(libs), ["executions"]) == Some(Element("executions", [JacocoExecution()]))
  {
    ChildIs(JacocoPlugin(libs), 3, "executions");
  }

  /** The execution is `prepare-agent`, runs the goal `prepare-agent` and names no phase. */
  lemma JacocoExecutionContent()
    ensures Names(JacocoExecution().children) == ["id", "goals"]
    ensures Child(JacocoExecution(), "phase") == None
    ensures TextAt(JacocoExecution(), ["id"]) == Some("prepare-agent")
    ensures TextAt(JacocoExecution(), ["goals", "goal"]) == Some("prepare-agent")
  {
    ChildIs(JacocoExecution(), 1, "goals");
  }

  /** Exactly three exclusion patterns, in the order the script gives them. */
  lemma JacocoExcludesContent()
    ensures Names(JacocoExcludes().children) == ["exclude", "exclude", "exclude"]
    ensures Texts(JacocoExcludes().children) == [Some("**/AvroModel."), Some("**/**.kafka.*"), Some("infrastructure/kafka/*")]
  {
  }

  /** The exclusions sit at `configuration/excludes` and do not depend on the catalog. */
  lemma JacocoExcludesFixed(libs: Libs, other: Libs)
    ensures At(JacocoPlugin(libs), ["configuration", "excludes"]) == Some(JacocoExcludes())
    ensures At(JacocoPlugin(libs), ["configuration", "excludes"]) == At(JacocoPlugin(other), ["configuration", "excludes"])
  {
    ChildIs(JacocoPlugin(libs), 4, "configuration");
    ChildIs(JacocoPlugin(other), 4, "configuration");
  }

  // ---- avroPlugin ----

  lemma AvroCoordinates(libs: Libs)
    ensures TextAt(AvroPlugin(libs), ["groupId"]) == Some(libs.avroPlugin.group)
    ensures TextAt(AvroPlugin(libs), ["artifactId"]) == Some(libs.avroPlugin.name)
    ensures TextAt(AvroPlugin(libs), ["version"]) == Some(libs.avroVersion)
  {
    ChildIs(AvroPlugin(libs), 1, "artifactId");
    ChildIs(AvroPlugin(libs), 2, "version");
  }

  /** The code generator maps Avro strings to `String` and decimals to `BigDecimal`. */
  lemma AvroConfigurationContent(libs: Libs)
    ensures TextAt(AvroPlugin(libs), ["configuration", "stringType"]) == Some("String")
    ensures TextAt(AvroPlugin(libs), ["configuration", "enableDecimalLogicalType"]) == Some("true")
  {
    ChildIs(AvroPlugin(libs), 3, "configuration");
    ChildIs(AvroConfiguration(), 1, "enableDecimalLogicalType");
  }

  /** Exactly one execution. */
  lemma AvroSingleExecution(libs: Libs)
    ensures At(AvroPlugin(libs), ["executions"]) == Some(Element("executions", [AvroExecution()]))
  {
    ChildIs(AvroPlugin(libs), 4, "executions");
  }

  /** The execution generates sources from the schemas during `generate-resources`. */
  lemma AvroExecutionContent()
    ensures TextAt(AvroExecution(), ["phase"]) == Some("generate-resources")
    ensures TextAt(AvroExecution(), ["goals", "goal"]) == Some("schema")
    ensures TextAt(AvroExecution(), ["configuration", "sourceDirectory"]) == Some("src/main/resources/avro")
    ensures TextAt(AvroExecution(), ["configuration", "outputDirectory"]) == Some("src/main/java")
  {
    ChildIs(AvroExecution(), 1, "goals");
    ChildIs(AvroExecution(), 2, "configuration");
    ChildIs(AvroExecutionConfiguration(), 1, "outputDirectory");
  }

  // ---- mavenCheckstylePlugin ----

  lemma CheckstyleCoordinates(libs: Libs)
    ensures TextAt(CheckstylePlugin(libs), ["groupId"]) == Some(libs.checkstylePlugin.group)
    ensures TextAt(CheckstylePlugin(libs), ["artifactId"]) == Some(libs.checkstylePlugin.name)
    ensures TextAt(CheckstylePlugin(libs), ["version"]) == libs.checkstylePlugin.version
  {
    ChildIs(CheckstylePlugin(libs), 1, "artifactId");
    ChildIs(CheckstylePlugin(libs), 2, "version");
  }

  /** Checkstyle pins its engine to the catalog's `puppycrawl.tools` entry. */
  lemma CheckstyleDependencyContent(libs: Libs)
    ensures TextAt(CheckstylePlugin(libs), ["dependencies", "dependency", "groupId"]) == Some(libs.puppycrawlTools.group)
    ensures TextAt(CheckstylePlugin(libs), ["dependencies", "dependency", "artifactId"]) == Some(libs.puppycrawlTools.name)
    ensures TextAt(CheckstylePlugin(libs), ["dependencies", "dependency", "version"]) == libs.puppycrawlTools.version
  {
    var dependency := CheckstyleDependency(libs);
    ChildIs(CheckstylePlugin(libs), 3, "dependencies");
    ChildIs(dependency, 1, "artifactId");
    ChildIs(dependency, 2, "version");
  }

  /** Exactly one execution. */
  lemma CheckstyleSingleExecution(libs: Libs)
    ensures At(CheckstylePlugin(libs), ["executions"]) == Some(Element("executions", [CheckstyleExecution()]))
  {
    ChildIs(CheckstylePlugin(libs), 4, "executions");
  }

  /** The execution has id and phase `validate` and runs the goal `check`. */
  lemma CheckstyleExecutionContent()
    ensures TextAt(CheckstyleExecution(), ["id"]) == Some("validate")
    ensures TextAt(CheckstyleExecution(), ["phase"]) == Some("validate")
    ensures TextAt(CheckstyleExecution(), ["goals", "goal"]) == Some("check")
  {
    ChildIs(CheckstyleExecution(), 1, "phase");
    ChildIs(CheckstyleExecution(), 2, "goals");
  }

  /** The configuration fails the build on warnings. */
  lemma CheckstyleConfigurationContent()
    ensures TextAt(CheckstyleExecution(), ["configuration", "failsOnError"]) == Some("true")
    ensures TextAt(CheckstyleExecution(), ["configuration", "violationSeverity"]) == Some("warning")
  {
    ChildIs(CheckstyleExecution(), 3, "configuration");
    ChildIs(CheckstyleConfiguration(), 2, "failsOnError");
    ChildIs(CheckstyleConfiguration(), 3, "violationSeverity");
  }

  // ---- jibMavenPlugin ----

  lemma JibCoordinates(libs: Libs)
    ensures TextAt(JibPlugin(libs), ["groupId"]) == Some(libs.jibPlugin.group)
    ensures TextAt(JibPlugin(libs), ["artifactId"]) == Some(libs.jibPlugin.name)
    ensures TextAt(JibPlugin(libs), ["version"]) == libs.jibPlugin.version
  {
    ChildIs(JibPlugin(libs), 1, "artifactId");
    ChildIs(JibPlugin(libs), 2, "version");
  }

  /** The base image's architecture is the Maven property reference `${docker.from.image.platform.architecture}`. */
  lemma JibArchitecture(libs: Libs)
    ensures TextAt(JibPlugin(libs), ["configuration", "from", "platforms", "platform", "architecture"])
         == Some(Placeholder(ArchitectureProperty))
  {
    ChildIs(JibPlugin(libs), 3, "configuration");
    ChildIs(JibFrom(), 1, "platforms");
  }

  // ---- springBootMavenBuildImagePlugin ----

  /** Grouped with the Spring Boot parent and carrying no `version` of its own. */
  lemma SpringBootCoordinates(libs: Libs)
    ensures TextAt(SpringBootPlugin(libs), ["groupId"]) == TextAt(Parent(libs), ["groupId"])
    ensures TextAt(SpringBootPlugin(libs), ["artifactId"]) == Some("spring-boot-maven-plugin")
    ensures Child(SpringBootPlugin(libs), "version") == None
  {
    ChildIs(SpringBootPlugin(libs), 1, "artifactId");
  }

  /** The image is built in `install`. */
  lemma SpringBootExecutionContent(libs: Libs)
    ensures TextAt(SpringBootPlugin(libs), ["executions", "execution", "phase"]) == Some("install")
    ensures TextAt(SpringBootPlugin(libs), ["executions", "execution", "goals", "goal"]) == Some("build-image")
  {
    var execution := SpringBootExecution();
    ChildIs(SpringBootPlugin(libs), 3, "executions");
    ChildIs(execution, 1, "goals");
  }

  // ---- profiles ----

  /** One profile, `arch-aarch64`, active on `aarch64` hosts. */
  lemma ProfileIdentity()
    ensures Names(Profiles().children) == ["profile"]
    ensures TextAt(Profiles(), ["profile", "id"]) == Some("arch-aarch64")
    ensures TextAt(Profiles(), ["profile", "activation", "os", "arch"]) == Some("aarch64")
  {
    ChildIs(Profile(), 1, "activation");
  }

  /** The profile sets exactly one property: the base image's architecture, to `arm64`. */
  lemma ProfilePropertiesContent()
    ensures At(Profiles(), ["profile", "properties"]).Some?
    ensures Names(At(Profiles(), ["profile", "properties"]).value.children) == [ArchitectureProperty]
    ensures TextAt(Profiles(), ["profile", "properties", ArchitectureProperty]) == Some("arm64")
  {
    var properties := ProfileProperties();
    ChildIs(Profile(), 2, "properties");
    assert At(properties, [ArchitectureProperty]) == Some(Text(ArchitectureProperty, "arm64"));
    assert At(Profile(), ["properties", ArchitectureProperty]) == Some(Text(ArchitectureProperty, "arm64"));
  }

  /** The property the profile overrides is the one the jib fragment refers to for the base image's
      architecture. */
  lemma ProfileOverridesJibArchitecture(libs: Libs)
    ensures At(Profiles(), ["profile", "properties"]).Some?
    ensures Names(At(Profiles(), ["profile", "properties"]).value.children) == [ArchitectureProperty]
    ensures TextAt(JibPlugin(libs), ["configuration", "from", "platforms", "platform", "architecture"])
         == Some(Placeholder(Names(At(Profiles(), ["profile", "properties"]).value.children)[0]))
  {
    ProfilePropertiesContent();
    JibArchitecture(libs);
  }
}

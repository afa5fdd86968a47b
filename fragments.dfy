/** The subtrees that the parent POM's `withXml` callbacks and fragment builders append, as values.
    Each function mirrors one `appendNode(...)` (with its `apply { ... }` block) of
    lg5-spring-parent/build.gradle.kts; the lemmas in `FragmentFacts` state what these subtrees hold. */
module Fragments {
  import opened Wrappers
  import opened Trees
  import opened Catalog

  /** A node appended with a text value: `appendNode(name, text)`. */
  function Text(name: string, text: string): Tree {
    Leaf(name, Some(text))
  }

  /** A node appended without a value and then given children. */
  function Element(name: string, children: seq<Tree>): Tree {
    Tree(name, None, children)
  }

  /** The `groupId`, `artifactId`, `version` triple that opens every plugin and dependency block. */
  function Coordinates(group: string, artifact: string, version: Option<string>): seq<Tree> {
    [Text("groupId", group), Text("artifactId", artifact), Leaf("version", version)]
  }

  /** `appendNode("goals").appendNode("goal", goal)`. */
  function Goals(goal: string): Tree {
    Element("goals", [Text("goal", goal)])
  }

  /** The Maven property that selects the base image's architecture; the jib fragment refers to it and
      the `arch-aarch64` profile overrides it. */
  const ArchitectureProperty: string := "docker.from.image.platform.architecture"

  /** A Maven property reference `${key}`, left for Maven to expand. */
  function Placeholder(key: string): string {
    "${" + key + "}"
  }

  // ---- the `pom.withXml` blocks ----

  /** The `parent` block of the first `withXml` callback. */
  function Parent(libs: Libs): Tree {
    Element("parent", [
      Text("groupId", libs.springbootParent.group),
      Text("artifactId", libs.springbootParent.name),
      Text("version", libs.springbootVersion),
      Leaf("relativePath", None)
    ])
  }

  /** `build/pluginManagement/plugins`: the fragments whose versions descendant modules inherit. */
  function ManagedPlugins(libs: Libs): seq<Tree> {
    [AvroPlugin(libs), JibPlugin(libs), SpringBootPlugin(libs)]
  }

  /** `build/plugins`: the fragments bound to every descendant module's build. */
  function BoundPlugins(libs: Libs): seq<Tree> {
    [CompilerPlugin(libs), JacocoPlugin(libs), CheckstylePlugin(libs)]
  }

  function ManagedPluginsElement(libs: Libs): Tree {
    Element("plugins", ManagedPlugins(libs))
  }

  function BoundPluginsElement(libs: Libs): Tree {
    Element("plugins", BoundPlugins(libs))
  }

  function PluginManagement(libs: Libs): Tree {
    Element("pluginManagement", [ManagedPluginsElement(libs)])
  }

  function Build(libs: Libs): Tree {
    Element("build", [PluginManagement(libs), BoundPluginsElement(libs)])
  }

  /** What the two `withXml` callbacks append to the POM's root, in order. */
  function PomAdditions(libs: Libs): seq<Tree> {
    [Parent(libs), Build(libs), Profiles()]
  }

  // ---- mavenCompilerPlugin ----

  function CompilerPlugin(libs: Libs): Tree {
    Element("plugin",
      Coordinates("org.apache.maven.plugins", "maven-compiler-plugin", Some(libs.mavenCompilerPluginVersion))
      + [CompilerConfiguration()])
  }

  /** `release` is appended with the Integer 21, which Groovy writes out as "21". */
  function CompilerConfiguration(): Tree {
    Element("configuration", [Text("release", "21")])
  }

  // ---- jacocoPlugin ----

  /** The exclusion patterns, verbatim (including the trailing dot of the first one). */
  const JacocoExcludePatterns: seq<string> := ["**/AvroModel.", "**/**.kafka.*", "infrastructure/kafka/*"]

  function JacocoPlugin(libs: Libs): Tree {
    Element("plugin",
      Coordinates("org.jacoco", "jacoco-maven-plugin", Some(libs.jacocoVersion))
      + [JacocoExecutions(), JacocoConfiguration()])
  }

  function JacocoExecutions(): Tree {
    Element("executions", [JacocoExecution()])
  }

  /** `goals` is appended inside `children().apply { ... }`; a child list has no `appendNode`, so the
      call binds to the enclosing `execution` and `goals` follows `id` as its sibling. */
  function JacocoExecution(): Tree {
    Element("execution", [Text("id", "prepare-agent"), Goals("prepare-agent")])
  }

  function JacocoConfiguration(): Tree {
    Element("configuration", [JacocoExcludes()])
  }

  function JacocoExcludes(): Tree {
    Element("excludes", [
      Text("exclude", JacocoExcludePatterns[0]),
      Text("exclude", JacocoExcludePatterns[1]),
      Text("exclude", JacocoExcludePatterns[2])
    ])
  }

  // ---- avroPlugin ----

  function AvroPlugin(libs: Libs): Tree {
    Element("plugin",
      Coordinates(libs.avroPlugin.group, libs.avroPlugin.name, Some(libs.avroVersion))
      + [AvroConfiguration(), AvroExecutions()])
  }

  function AvroConfiguration(): Tree {
    Element("configuration", [Text("stringType", "String"), Text("enableDecimalLogicalType", "true")])
  }

  function AvroExecutions(): Tree {
    Element("executions", [AvroExecution()])
  }

  function AvroExecution(): Tree {
    Element("execution", [Text("phase", "generate-resources"), Goals("schema"), AvroExecutionConfiguration()])
  }

  function AvroExecutionConfiguration(): Tree {
    Element("configuration", [
      Text("sourceDirectory", "src/main/resources/avro"),
      Text("outputDirectory", "src/main/java")
    ])
  }

  // ---- mavenCheckstylePlugin ----

  function CheckstylePlugin(libs: Libs): Tree {
    Element("plugin",
      Coordinates(libs.checkstylePlugin.group, libs.checkstylePlugin.name, libs.checkstylePlugin.version)
      + [CheckstyleDependencies(libs), CheckstyleExecutions()])
  }

  /** Pins the Checkstyle engine to the catalog's `puppycrawl.tools` entry. */
  function CheckstyleDependencies(libs: Libs): Tree {
    Element("dependencies", [CheckstyleDependency(libs)])
  }

  function CheckstyleDependency(libs: Libs): Tree {
    Element("dependency", Coordinates(libs.puppycrawlTools.group, libs.puppycrawlTools.name, libs.puppycrawlTools.version))
  }

  function CheckstyleExecutions(): Tree {
    Element("executions", [CheckstyleExecution()])
  }

  function CheckstyleExecution(): Tree {
    Element("execution", [Text("id", "validate"), Text("phase", "validate"), Goals("check"), CheckstyleConfiguration()])
  }

  function CheckstyleConfiguration(): Tree {
    Element("configuration", [
      Text("configLocation", "./checkstyle.xml"),
      Text("consoleOutput", "true"),
      Text("failsOnError", "true"),
      Text("violationSeverity", "warning")
    ])
  }

  // ---- jibMavenPlugin ----

  function JibPlugin(libs: Libs): Tree {
    Element("plugin",
      Coordinates(libs.jibPlugin.group, libs.jibPlugin.name, libs.jibPlugin.version)
      + [JibConfiguration(), JibExecutions()])
  }

  function JibConfiguration(): Tree {
    Element("configuration", [JibFrom()])
  }

  function JibFrom(): Tree {
    Element("from", [Text("image", "gcr.io/distroless/java17-debian12"), JibPlatforms()])
  }

  function JibPlatforms(): Tree {
    Element("platforms", [JibPlatform()])
  }

  function JibPlatform(): Tree {
    Element("platform", [
      Text("architecture", Placeholder(ArchitectureProperty)),
      Text("os", Placeholder("docker.from.image.platform.os"))
    ])
  }

  function JibExecutions(): Tree {
    Element("executions", [JibExecution()])
  }

  function JibExecution(): Tree {
    Element("execution", [
      Text("id", "build-image"),
      Text("phase", "post-integration-test"),
      Goals("dockerBuild"),
      JibExecutionConfiguration()
    ])
  }

  function JibExecutionConfiguration(): Tree {
    Element("configuration", [
      JibTo(),
      JibContainer()
    ])
  }

  function JibTo(): Tree {
    Element("to", [Text("image", "${project.groupId}/${parent.artifactId}:${project.version}")])
  }

  function JibContainer(): Tree {
    Element("container", [Text("creationTime", "USE_CURRENT_TIMESTAMP"), JibJvmFlags()])
  }

  function JibJvmFlags(): Tree {
    Element("jvmFlags", [
      Text("jvmFlag", "-Duser.timezone=UTC"),
      Text("jvmFlag", "-XX:+PrintFlagsFinal"),
      Text("jvmFlag", "-XX:MaxRAMPercentage=50")
    ])
  }

  // ---- springBootMavenBuildImagePlugin ----

  /** Takes its group from the Spring Boot parent entry and appends no `version`. */
  function SpringBootPlugin(libs: Libs): Tree {
    Element("plugin", [
      Text("groupId", libs.springbootParent.group),
      Text("artifactId", "spring-boot-maven-plugin"),
      SpringBootConfiguration(),
      SpringBootExecutions()
    ])
  }

  function SpringBootConfiguration(): Tree {
    Element("configuration", [
      SpringBootImage(),
      Text("createdDate", "now"),
      Text("skip", "false")
    ])
  }

  function SpringBootImage(): Tree {
    Element("image", [Text("name", "${project.groupId}/${project.parent.artifactId}:${project.version}")])
  }

  function SpringBootExecutions(): Tree {
    Element("executions", [SpringBootExecution()])
  }

  function SpringBootExecution(): Tree {
    Element("execution", [Text("phase", "install"), Goals("build-image")])
  }

  // ---- profiles ----

  function Profiles(): Tree {
    Element("profiles", [Profile()])
  }

  function Profile(): Tree {
    Element("profile", [
      Text("id", "arch-aarch64"),
      Activation(),
      ProfileProperties()
    ])
  }

  function Activation(): Tree {
    Element("activation", [ActivationOs()])
  }

  function ActivationOs(): Tree {
    Element("os", [Text("arch", "aarch64")])
  }

  /** The Maven properties the profile overrides. */
  function ProfileProperties(): Tree {
    Element("properties", [Text(ArchitectureProperty, "arm64")])
  }
}

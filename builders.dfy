/** The Kotlin extension functions `fun Node.xxxPlugin()` and `fun Node.profiles()` of the parent POM
    build script, as methods whose first parameter is the receiver node.

    Groovy builds top-down: a child is appended first and filled in afterwards. Each
    `appendNode(name).apply { ... }` becomes a method `AppendX` that appends the child, runs the block
    (a method `XBlock`, or inline when the block appends a single node) and then lets the receiver
    `Adopt` what the child gained (ghost bookkeeping only). Every method is proved to append exactly the
    subtree that its counterpart in `Fragments` describes, after the receiver's existing children, and
    nothing else. `AppendX` and `XBlock` pair with `Fragments.X`. The fragment builders keep the
    script's names and their counterparts drop `Maven` and `BuildImage` where the name has them:
    `MavenCompilerPlugin` pairs with `CompilerPlugin`, `MavenCheckstylePlugin` with `CheckstylePlugin`,
    `JibMavenPlugin` with `JibPlugin` and `SpringBootMavenBuildImagePlugin` with `SpringBootPlugin`. */
module Builders {
  import opened Wrappers
  import opened Trees
  import opened Catalog
  import opened Xml
  import F = Fragments

  // ---- shared shapes ----

  /** `appendNode("groupId", g)`, `appendNode("artifactId", a)`, `appendNode("version", v)`. */
  method AppendCoordinates(x: Node, group: string, artifact: string, version: Option<string>)
    requires x.Valid()
    modifies x
    ensures x.Valid() && fresh(x.Repr - old(x.Repr))
    ensures x.Value == Tree(x.name, x.text, old(x.Value.children) + F.Coordinates(group, artifact, version))
  {
    var _ := x.AppendNode("groupId", Some(group));
    var _ := x.AppendNode("artifactId", Some(artifact));
    var _ := x.AppendNode("version", version);
  }

  /** `appendNode("goals").appendNode("goal", goal)`. */
  method AppendGoals(execution: Node, goal: string)
    requires execution.Valid()
    modifies execution
    ensures execution.Valid() && fresh(execution.Repr - old(execution.Repr))
    ensures execution.Value == Tree(execution.name, execution.text, old(execution.Value.children) + [F.Goals(goal)])
  {
    ghost var kids := execution.Value.children;
    var goals := execution.AppendNode("goals", None);
    var _ := goals.AppendNode("goal", Some(goal));
    assert goals.Value == F.Goals(goal);
    execution.Adopt(goals, kids);
  }

  // ---- mavenCompilerPlugin ----

  method MavenCompilerPlugin(plugins: Node, libs: Libs)
    requires plugins.Valid()
    modifies plugins
    ensures plugins.Valid() && fresh(plugins.Repr - old(plugins.Repr))
    ensures plugins.Value == Tree(plugins.name, plugins.text, old(plugins.Value.children) + [F.CompilerPlugin(libs)])
  {
    ghost var kids := plugins.Value.children;
    var plugin := plugins.AppendNode("plugin", None);
    CompilerPluginBlock(plugin, libs);
    assert plugin.Value == F.CompilerPlugin(libs);
    plugins.Adopt(plugin, kids);
  }

  method CompilerPluginBlock(plugin: Node, libs: Libs)
    requires plugin.Valid()
    modifies plugin
    ensures plugin.Valid() && fresh(plugin.Repr - old(plugin.Repr))
    ensures plugin.Value == Tree(plugin.name, plugin.text, old(plugin.Value.children) + F.CompilerPlugin(libs).children)
  {
    AppendCoordinates(plugin, "org.apache.maven.plugins", "maven-compiler-plugin", Some(libs.mavenCompilerPluginVersion));
    AppendCompilerConfiguration(plugin);
  }

  method AppendCompilerConfiguration(plugin: Node)
    requires plugin.Valid()
    modifies plugin
    ensures plugin.Valid() && fresh(plugin.Repr - old(plugin.Repr))
    ensures plugin.Value == Tree(plugin.name, plugin.text, old(plugin.Value.children) + [F.CompilerConfiguration()])
  {
    ghost var kids := plugin.Value.children;
    var configuration := plugin.AppendNode("configuration", None);
    // Groovy stores the Integer 21 as the value; it is written out as "21".
    var _ := configuration.AppendNode("release", Some("21"));
    assert configuration.Value == F.CompilerConfiguration();
    plugin.Adopt(configuration, kids);
  }

  // ---- jacocoPlugin ----

  method JacocoPlugin(plugins: Node, libs: Libs)
    requires plugins.Valid()
    modifies plugins
    ensures plugins.Valid() && fresh(plugins.Repr - old(plugins.Repr))
    ensures plugins.Value == Tree(plugins.name, plugins.text, old(plugins.Value.children) + [F.JacocoPlugin(libs)])
  {
    ghost var kids := plugins.Value.children;
    var plugin := plugins.AppendNode("plugin", None);
    JacocoPluginBlock(plugin, libs);
    assert plugin.Value == F.JacocoPlugin(libs);
    plugins.Adopt(plugin, kids);
  }

  method JacocoPluginBlock(plugin: Node, libs: Libs)
    requires plugin.Valid()
    modifies plugin
    ensures plugin.Valid() && fresh(plugin.Repr - old(plugin.Repr))
    ensures plugin.Value == Tree(plugin.name, plugin.text, old(plugin.Value.children) + F.JacocoPlugin(libs).children)
  {
    AppendCoordinates(plugin, "org.jacoco", "jacoco-maven-plugin", Some(libs.jacocoVersion));
    AppendJacocoExecutions(plugin);
    AppendJacocoConfiguration(plugin);
  }

  method AppendJacocoExecutions(plugin: Node)
    requires plugin.Valid()
    modifies plugin
    ensures plugin.Valid() && fresh(plugin.Repr - old(plugin.Repr))
    ensures plugin.Value == Tree(plugin.name, plugin.text, old(plugin.Value.children) + [F.JacocoExecutions()])
  {
    ghost var kids := plugin.Value.children;
    var executions := plugin.AppendNode("executions", None);
    AppendJacocoExecution(executions);
    assert executions.Value == F.JacocoExecutions();
    plugin.Adopt(executions, kids);
  }

  method AppendJacocoExecution(executions: Node)
    requires executions.Valid()
    modifies executions
    ensures executions.Valid() && fresh(executions.Repr - old(executions.Repr))
    ensures executions.Value == Tree(executions.name, executions.text, old(executions.Value.children) + [F.JacocoExecution()])
  {
    ghost var kids := executions.Value.children;
    var execution := executions.AppendNode("execution", None);
    JacocoExecutionBlock(execution);
    assert execution.Value == F.JacocoExecution();
    executions.Adopt(execution, kids);
  }

  method JacocoExecutionBlock(execution: Node)
    requires execution.Valid()
    modifies execution
    ensures execution.Valid() && fresh(execution.Repr - old(execution.Repr))
    ensures execution.Value == Tree(execution.name, execution.text, old(execution.Value.children) + F.JacocoExecution().children)
  {
    var _ := execution.AppendNode("id", Some("prepare-agent"));
    // `children().apply { appendNode(...) }`: the child list has no `appendNode`, so the call
    // resolves against the enclosing receiver, this execution.
    AppendGoals(execution, "prepare-agent");
  }

  method AppendJacocoConfiguration(plugin: Node)
    requires plugin.Valid()
    modifies plugin
    ensures plugin.Valid() && fresh(plugin.Repr - old(plugin.Repr))
    ensures plugin.Value == Tree(plugin.name, plugin.text, old(plugin.Value.children) + [F.JacocoConfiguration()])
  {
    ghost var kids := plugin.Value.children;
    var configuration := plugin.AppendNode("configuration", None);
    AppendJacocoExcludes(configuration);
    assert configuration.Value == F.JacocoConfiguration();
    plugin.Adopt(configuration, kids);
  }

  method AppendJacocoExcludes(configuration: Node)
    requires configuration.Valid()
    modifies configuration
    ensures configuration.Valid() && fresh(configuration.Repr - old(configuration.Repr))
    ensures configuration.Value == Tree(configuration.name, configuration.text, old(configuration.Value.children) + [F.JacocoExcludes()])
  {
    ghost var kids := configuration.Value.children;
    var excludes := configuration.AppendNode("excludes", None);
    JacocoExcludesBlock(excludes);
    assert excludes.Value == F.JacocoExcludes();
    configuration.Adopt(excludes, kids);
  }

  method JacocoExcludesBlock(excludes: Node)
    requires excludes.Valid()
    modifies excludes
    ensures excludes.Valid() && fresh(excludes.Repr - old(excludes.Repr))
    ensures excludes.Value == Tree(excludes.name, excludes.text, old(excludes.Value.children) + F.JacocoExcludes().children)
  {
    var _ := excludes.AppendNode("exclude", Some("**/AvroModel."));
    var _ := excludes.AppendNode("exclude", Some("**/**.kafka.*"));
    var _ := excludes.AppendNode("exclude", Some("infrastructure/kafka/*"));
  }

  // ---- avroPlugin ----

  method AvroPlugin(plugins: Node, libs: Libs)
    requires plugins.Valid()
    modifies plugins
    ensures plugins.Valid() && fresh(plugins.Repr - old(plugins.Repr))
    ensures plugins.Value == Tree(plugins.name, plugins.text, old(plugins.Value.children) + [F.AvroPlugin(libs)])
  {
    ghost var kids := plugins.Value.children;
    var plugin := plugins.AppendNode("plugin", None);
    AvroPluginBlock(plugin, libs);
    assert plugin.Value == F.AvroPlugin(libs);
    plugins.Adopt(plugin, kids);
  }

  method AvroPluginBlock(plugin: Node, libs: Libs)
    requires plugin.Valid()
    modifies plugin
    ensures plugin.Valid() && fresh(plugin.Repr - old(plugin.Repr))
    ensures plugin.Value == Tree(plugin.name, plugin.text, old(plugin.Value.children) + F.AvroPlugin(libs).children)
  {
    AppendCoordinates(plugin, libs.avroPlugin.group, libs.avroPlugin.name, Some(libs.avroVersion));
    AppendAvroConfiguration(plugin);
    AppendAvroExecutions(plugin);
  }

  method AppendAvroConfiguration(plugin: Node)
    requires plugin.Valid()
    modifies plugin
    ensures plugin.Valid() && fresh(plugin.Repr - old(plugin.Repr))
    ensures plugin.Value == Tree(plugin.name, plugin.text, old(plugin.Value.children) + [F.AvroConfiguration()])
  {
    ghost var kids := plugin.Value.children;
    var configuration := plugin.AppendNode("configuration", None);
    AvroConfigurationBlock(configuration);
    assert configuration.Value == F.AvroConfiguration();
    plugin.Adopt(configuration, kids);
  }

  method AvroConfigurationBlock(configuration: Node)
    requires configuration.Valid()
    modifies configuration
    ensures configuration.Valid() && fresh(configuration.Repr - old(configuration.Repr))
    ensures configuration.Value == Tree(configuration.name, configuration.text, old(configuration.Value.children) + F.AvroConfiguration().children)
  {
    var _ := configuration.AppendNode("stringType", Some("String"));
    var _ := configuration.AppendNode("enableDecimalLogicalType", Some("true"));
  }

  method AppendAvroExecutions(plugin: Node)
    requires plugin.Valid()
    modifies plugin
    ensures plugin.Valid() && fresh(plugin.Repr - old(plugin.Repr))
    ensures plugin.Value == Tree(plugin.name, plugin.text, old(plugin.Value.children) + [F.AvroExecutions()])
  {
    ghost var kids := plugin.Value.children;
    var executions := plugin.AppendNode("executions", None);
    AppendAvroExecution(executions);
    assert executions.Value == F.AvroExecutions();
    plugin.Adopt(executions, kids);
  }

  method AppendAvroExecution(executions: Node)
    requires executions.Valid()
    modifies executions
    ensures executions.Valid() && fresh(executions.Repr - old(executions.Repr))
    ensures executions.Value == Tree(executions.name, executions.text, old(executions.Value.children) + [F.AvroExecution()])
  {
    ghost var kids := executions.Value.children;
    var execution := executions.AppendNode("execution", None);
    AvroExecutionBlock(execution);
    assert execution.Value == F.AvroExecution();
    executions.Adopt(execution, kids);
  }

  method AvroExecutionBlock(execution: Node)
    requires execution.Valid()
    modifies execution
    ensures execution.Valid() && fresh(execution.Repr - old(execution.Repr))
    ensures execution.Value == Tree(execution.name, execution.text, old(execution.Value.children) + F.AvroExecution().children)
  {
    var _ := execution.AppendNode("phase", Some("generate-resources"));
    AppendGoals(execution, "schema");
    AppendAvroExecutionConfiguration(execution);
  }

  method AppendAvroExecutionConfiguration(execution: Node)
    requires execution.Valid()
    modifies execution
    ensures execution.Valid() && fresh(execution.Repr - old(execution.Repr))
    ensures execution.Value == Tree(execution.name, execution.text, old(execution.Value.children) + [F.AvroExecutionConfiguration()])
  {
    ghost var kids := execution.Value.children;
    var configuration := execution.AppendNode("configuration", None);
    AvroExecutionConfigurationBlock(configuration);
    assert configuration.Value == F.AvroExecutionConfiguration();
    execution.Adopt(configuration, kids);
  }

  method AvroExecutionConfigurationBlock(configuration: Node)
    requires configuration.Valid()
    modifies configuration
    ensures configuration.Valid() && fresh(configuration.Repr - old(configuration.Repr))
    ensures configuration.Value == Tree(configuration.name, configuration.text, old(configuration.Value.children) + F.AvroExecutionConfiguration().children)
  {
    var _ := configuration.AppendNode("sourceDirectory", Some("src/main/resources/avro"));
    var _ := configuration.AppendNode("outputDirectory", Some("src/main/java"));
  }

  // ---- mavenCheckstylePlugin ----

  method MavenCheckstylePlugin(plugins: Node, libs: Libs)
    requires plugins.Valid()
    modifies plugins
    ensures plugins.Valid() && fresh(plugins.Repr - old(plugins.Repr))
    ensures plugins.Value == Tree(plugins.name, plugins.text, old(plugins.Value.children) + [F.CheckstylePlugin(libs)])
  {
    ghost var kids := plugins.Value.children;
    var plugin := plugins.AppendNode("plugin", None);
    CheckstylePluginBlock(plugin, libs);
    assert plugin.Value == F.CheckstylePlugin(libs);
    plugins.Adopt(plugin, kids);
  }

  method CheckstylePluginBlock(plugin: Node, libs: Libs)
    requires plugin.Valid()
    modifies plugin
    ensures plugin.Valid() && fresh(plugin.Repr - old(plugin.Repr))
    ensures plugin.Value == Tree(plugin.name, plugin.text, old(plugin.Value.children) + F.CheckstylePlugin(libs).children)
  {
    AppendCoordinates(plugin, libs.checkstylePlugin.group, libs.checkstylePlugin.name, libs.checkstylePlugin.version);
    AppendCheckstyleDependencies(plugin, libs);
    AppendCheckstyleExecutions(plugin);
  }

  method AppendCheckstyleDependencies(plugin: Node, libs: Libs)
    requires plugin.Valid()
    modifies plugin
    ensures plugin.Valid() && fresh(plugin.Repr - old(plugin.Repr))
    ensures plugin.Value == Tree(plugin.name, plugin.text, old(plugin.Value.children) + [F.CheckstyleDependencies(libs)])
  {
    ghost var kids := plugin.Value.children;
    var dependencies := plugin.AppendNode("dependencies", None);
    AppendCheckstyleDependency(dependencies, libs);
    assert dependencies.Value == F.CheckstyleDependencies(libs);
    plugin.Adopt(dependencies, kids);
  }

  method AppendCheckstyleDependency(dependencies: Node, libs: Libs)
    requires dependencies.Valid()
    modifies dependencies
    ensures dependencies.Valid() && fresh(dependencies.Repr - old(dependencies.Repr))
    ensures dependencies.Value == Tree(dependencies.name, dependencies.text, old(dependencies.Value.children) + [F.CheckstyleDependency(libs)])
  {
    ghost var kids := dependencies.Value.children;
    var dependency := dependencies.AppendNode("dependency", None);
    AppendCoordinates(dependency, libs.puppycrawlTools.group, libs.puppycrawlTools.name, libs.puppycrawlTools.version);
    assert dependency.Value == F.CheckstyleDependency(libs);
    dependencies.Adopt(dependency, kids);
  }

  method AppendCheckstyleExecutions(plugin: Node)
    requires plugin.Valid()
    modifies plugin
    ensures plugin.Valid() && fresh(plugin.Repr - old(plugin.Repr))
    ensures plugin.Value == Tree(plugin.name, plugin.text, old(plugin.Value.children) + [F.CheckstyleExecutions()])
  {
    ghost var kids := plugin.Value.children;
    var executions := plugin.AppendNode("executions", None);
    AppendCheckstyleExecution(executions);
    assert executions.Value == F.CheckstyleExecutions();
    plugin.Adopt(executions, kids);
  }

  method AppendCheckstyleExecution(executions: Node)
    requires executions.Valid()
    modifies executions
    ensures executions.Valid() && fresh(executions.Repr - old(executions.Repr))
    ensures executions.Value == Tree(executions.name, executions.text, old(executions.Value.children) + [F.CheckstyleExecution()])
  {
    ghost var kids := executions.Value.children;
    var execution := executions.AppendNode("execution", None);
    CheckstyleExecutionBlock(execution);
    assert execution.Value == F.CheckstyleExecution();
    executions.Adopt(execution, kids);
  }

  method CheckstyleExecutionBlock(execution: Node)
    requires execution.Valid()
    modifies execution
    ensures execution.Valid() && fresh(execution.Repr - old(execution.Repr))
    ensures execution.Value == Tree(execution.name, execution.text, old(execution.Value.children) + F.CheckstyleExecution().children)
  {
    var _ := execution.AppendNode("id", Some("validate"));
    var _ := execution.AppendNode("phase", Some("validate"));
    AppendGoals(execution, "check");
    AppendCheckstyleConfiguration(execution);
  }

  method AppendCheckstyleConfiguration(execution: Node)
    requires execution.Valid()
    modifies execution
    ensures execution.Valid() && fresh(execution.Repr - old(execution.Repr))
    ensures execution.Value == Tree(execution.name, execution.text, old(execution.Value.children) + [F.CheckstyleConfiguration()])
  {
    ghost var kids := execution.Value.children;
    var configuration := execution.AppendNode("configuration", None);
    CheckstyleConfigurationBlock(configuration);
    assert configuration.Value == F.CheckstyleConfiguration();
    execution.Adopt(configuration, kids);
  }

  method CheckstyleConfigurationBlock(configuration: Node)
    requires configuration.Valid()
    modifies configuration
    ensures configuration.Valid() && fresh(configuration.Repr - old(configuration.Repr))
    ensures configuration.Value == Tree(configuration.name, configuration.text, old(configuration.Value.children) + F.CheckstyleConfiguration().children)
  {
    var _ := configuration.AppendNode("configLocation", Some("./checkstyle.xml"));
    var _ := configuration.AppendNode("consoleOutput", Some("true"));
    var _ := configuration.AppendNode("failsOnError", Some("true"));
    var _ := configuration.AppendNode("violationSeverity", Some("warning"));
  }

  // ---- jibMavenPlugin ----

  method JibMavenPlugin(plugins: Node, libs: Libs)
    requires plugins.Valid()
    modifies plugins
    ensures plugins.Valid() && fresh(plugins.Repr - old(plugins.Repr))
    ensures plugins.Value == Tree(plugins.name, plugins.text, old(plugins.Value.children) + [F.JibPlugin(libs)])
  {
    ghost var kids := plugins.Value.children;
    var plugin := plugins.AppendNode("plugin", None);
    JibPluginBlock(plugin, libs);
    assert plugin.Value == F.JibPlugin(libs);
    plugins.Adopt(plugin, kids);
  }

  method JibPluginBlock(plugin: Node, libs: Libs)
    requires plugin.Valid()
    modifies plugin
    ensures plugin.Valid() && fresh(plugin.Repr - old(plugin.Repr))
    ensures plugin.Value == Tree(plugin.name, plugin.text, old(plugin.Value.children) + F.JibPlugin(libs).children)
  {
    AppendCoordinates(plugin, libs.jibPlugin.group, libs.jibPlugin.name, libs.jibPlugin.version);
    AppendJibConfiguration(plugin);
    AppendJibExecutions(plugin);
  }

  method AppendJibConfiguration(plugin: Node)
    requires plugin.Valid()
    modifies plugin
    ensures plugin.Valid() && fresh(plugin.Repr - old(plugin.Repr))
    ensures plugin.Value == Tree(plugin.name, plugin.text, old(plugin.Value.children) + [F.JibConfiguration()])
  {
    ghost var kids := plugin.Value.children;
    var configuration := plugin.AppendNode("configuration", None);
    AppendJibFrom(configuration);
    assert configuration.Value == F.JibConfiguration();
    plugin.Adopt(configuration, kids);
  }

  method AppendJibFrom(configuration: Node)
    requires configuration.Valid()
    modifies configuration
    ensures configuration.Valid() && fresh(configuration.Repr - old(configuration.Repr))
    ensures configuration.Value == Tree(configuration.name, configuration.text, old(configuration.Value.children) + [F.JibFrom()])
  {
    ghost var kids := configuration.Value.children;
    var from := configuration.AppendNode("from", None);
    JibFromBlock(from);
    assert from.Value == F.JibFrom();
    configuration.Adopt(from, kids);
  }

  method JibFromBlock(from: Node)
    requires from.Valid()
    modifies from
    ensures from.Valid() && fresh(from.Repr - old(from.Repr))
    ensures from.Value == Tree(from.name, from.text, old(from.Value.children) + F.JibFrom().children)
  {
    var _ := from.AppendNode("image", Some("gcr.io/distroless/java17-debian12"));
    AppendJibPlatforms(from);
  }

  method AppendJibPlatforms(from: Node)
    requires from.Valid()
    modifies from
    ensures from.Valid() && fresh(from.Repr - old(from.Repr))
    ensures from.Value == Tree(from.name, from.text, old(from.Value.children) + [F.JibPlatforms()])
  {
    ghost var kids := from.Value.children;
    var platforms := from.AppendNode("platforms", None);
    AppendJibPlatform(platforms);
    assert platforms.Value == F.JibPlatforms();
    from.Adopt(platforms, kids);
  }

  method AppendJibPlatform(platforms: Node)
    requires platforms.Valid()
    modifies platforms
    ensures platforms.Valid() && fresh(platforms.Repr - old(platforms.Repr))
    ensures platforms.Value == Tree(platforms.name, platforms.text, old(platforms.Value.children) + [F.JibPlatform()])
  {
    ghost var kids := platforms.Value.children;
    var platform := platforms.AppendNode("platform", None);
    JibPlatformBlock(platform);
    assert platform.Value == F.JibPlatform();
    platforms.Adopt(platform, kids);
  }

  method JibPlatformBlock(platform: Node)
    requires platform.Valid()
    modifies platform
    ensures platform.Valid() && fresh(platform.Repr - old(platform.Repr))
    ensures platform.Value == Tree(platform.name, platform.text, old(platform.Value.children) + F.JibPlatform().children)
  {
    // Both values are Maven property references, written `${key}` in the script.
    var _ := platform.AppendNode("architecture", Some(F.Placeholder(F.ArchitectureProperty)));
    var _ := platform.AppendNode("os", Some(F.Placeholder("docker.from.image.platform.os")));
  }

  method AppendJibExecutions(plugin: Node)
    requires plugin.Valid()
    modifies plugin
    ensures plugin.Valid() && fresh(plugin.Repr - old(plugin.Repr))
    ensures plugin.Value == Tree(plugin.name, plugin.text, old(plugin.Value.children) + [F.JibExecutions()])
  {
    ghost var kids := plugin.Value.children;
    var executions := plugin.AppendNode("executions", None);
    AppendJibExecution(executions);
    assert executions.Value == F.JibExecutions();
    plugin.Adopt(executions, kids);
  }

  method AppendJibExecution(executions: Node)
    requires executions.Valid()
    modifies executions
    ensures executions.Valid() && fresh(executions.Repr - old(executions.Repr))
    ensures executions.Value == Tree(executions.name, executions.text, old(executions.Value.children) + [F.JibExecution()])
  {
    ghost var kids := executions.Value.children;
    var execution := executions.AppendNode("execution", None);
    JibExecutionBlock(execution);
    assert execution.Value == F.JibExecution();
    executions.Adopt(execution, kids);
  }

  method JibExecutionBlock(execution: Node)
    requires execution.Valid()
    modifies execution
    ensures execution.Valid() && fresh(execution.Repr - old(execution.Repr))
    ensures execution.Value == Tree(execution.name, execution.text, old(execution.Value.children) + F.JibExecution().children)
  {
    var _ := execution.AppendNode("id", Some("build-image"));
    var _ := execution.AppendNode("phase", Some("post-integration-test"));
    AppendGoals(execution, "dockerBuild");
    AppendJibExecutionConfiguration(execution);
  }

  method AppendJibExecutionConfiguration(execution: Node)
    requires execution.Valid()
    modifies execution
    ensures execution.Valid() && fresh(execution.Repr - old(execution.Repr))
    ensures execution.Value == Tree(execution.name, execution.text, old(execution.Value.children) + [F.JibExecutionConfiguration()])
  {
    ghost var kids := execution.Value.children;
    var configuration := execution.AppendNode("configuration", None);
    JibExecutionConfigurationBlock(configuration);
    assert configuration.Value == F.JibExecutionConfiguration();
    execution.Adopt(configuration, kids);
  }

  method JibExecutionConfigurationBlock(configuration: Node)
    requires configuration.Valid()
    modifies configuration
    ensures configuration.Valid() && fresh(configuration.Repr - old(configuration.Repr))
    ensures configuration.Value == Tree(configuration.name, configuration.text, old(configuration.Value.children) + F.JibExecutionConfiguration().children)
  {
    AppendJibTo(configuration);
    AppendJibContainer(configuration);
  }

  method AppendJibTo(configuration: Node)
    requires configuration.Valid()
    modifies configuration
    ensures configuration.Valid() && fresh(configuration.Repr - old(configuration.Repr))
    ensures configuration.Value == Tree(configuration.name, configuration.text, old(configuration.Value.children) + [F.JibTo()])
  {
    ghost var kids := configuration.Value.children;
    var to := configuration.AppendNode("to", None);
    var _ := to.AppendNode("image", Some("${project.groupId}/${parent.artifactId}:${project.version}"));
    assert to.Value == F.JibTo();
    configuration.Adopt(to, kids);
  }

  method AppendJibContainer(configuration: Node)
    requires configuration.Valid()
    modifies configuration
    ensures configuration.Valid() && fresh(configuration.Repr - old(configuration.Repr))
    ensures configuration.Value == Tree(configuration.name, configuration.text, old(configuration.Value.children) + [F.JibContainer()])
  {
    ghost var kids := configuration.Value.children;
    var container := configuration.AppendNode("container", None);
    JibContainerBlock(container);
    assert container.Value == F.JibContainer();
    configuration.Adopt(container, kids);
  }

  method JibContainerBlock(container: Node)
    requires container.Valid()
    modifies container
    ensures container.Valid() && fresh(container.Repr - old(container.Repr))
    ensures container.Value == Tree(container.name, container.text, old(container.Value.children) + F.JibContainer().children)
  {
    var _ := container.AppendNode("creationTime", Some("USE_CURRENT_TIMESTAMP"));
    AppendJibJvmFlags(container);
  }

  method AppendJibJvmFlags(container: Node)
    requires container.Valid()
    modifies container
    ensures container.Valid() && fresh(container.Repr - old(container.Repr))
    ensures container.Value == Tree(container.name, container.text, old(container.Value.children) + [F.JibJvmFlags()])
  {
    ghost var kids := container.Value.children;
    var jvmFlags := container.AppendNode("jvmFlags", None);
    JibJvmFlagsBlock(jvmFlags);
    assert jvmFlags.Value == F.JibJvmFlags();
    container.Adopt(jvmFlags, kids);
  }

  method JibJvmFlagsBlock(jvmFlags: Node)
    requires jvmFlags.Valid()
    modifies jvmFlags
    ensures jvmFlags.Valid() && fresh(jvmFlags.Repr - old(jvmFlags.Repr))
    ensures jvmFlags.Value == Tree(jvmFlags.name, jvmFlags.text, old(jvmFlags.Value.children) + F.JibJvmFlags().children)
  {
    var _ := jvmFlags.AppendNode("jvmFlag", Some("-Duser.timezone=UTC"));
    var _ := jvmFlags.AppendNode("jvmFlag", Some("-XX:+PrintFlagsFinal"));
    var _ := jvmFlags.AppendNode("jvmFlag", Some("-XX:MaxRAMPercentage=50"));
  }

  // ---- springBootMavenBuildImagePlugin ----

  method SpringBootMavenBuildImagePlugin(plugins: Node, libs: Libs)
    requires plugins.Valid()
    modifies plugins
    ensures plugins.Valid() && fresh(plugins.Repr - old(plugins.Repr))
    ensures plugins.Value == Tree(plugins.name, plugins.text, old(plugins.Value.children) + [F.SpringBootPlugin(libs)])
  {
    ghost var kids := plugins.Value.children;
    var plugin := plugins.AppendNode("plugin", None);
    SpringBootPluginBlock(plugin, libs);
    assert plugin.Value == F.SpringBootPlugin(libs);
    plugins.Adopt(plugin, kids);
  }

  method SpringBootPluginBlock(plugin: Node, libs: Libs)
    requires plugin.Valid()
    modifies plugin
    ensures plugin.Valid() && fresh(plugin.Repr - old(plugin.Repr))
    ensures plugin.Value == Tree(plugin.name, plugin.text, old(plugin.Value.children) + F.SpringBootPlugin(libs).children)
  {
    var _ := plugin.AppendNode("groupId", Some(libs.springbootParent.group));
    var _ := plugin.AppendNode("artifactId", Some("spring-boot-maven-plugin"));
    AppendSpringBootConfiguration(plugin);
    AppendSpringBootExecutions(plugin);
  }

  method AppendSpringBootConfiguration(plugin: Node)
    requires plugin.Valid()
    modifies plugin
    ensures plugin.Valid() && fresh(plugin.Repr - old(plugin.Repr))
    ensures plugin.Value == Tree(plugin.name, plugin.text, old(plugin.Value.children) + [F.SpringBootConfiguration()])
  {
    ghost var kids := plugin.Value.children;
    var configuration := plugin.AppendNode("configuration", None);
    SpringBootConfigurationBlock(configuration);
    assert configuration.Value == F.SpringBootConfiguration();
    plugin.Adopt(configuration, kids);
  }

  method SpringBootConfigurationBlock(configuration: Node)
    requires configuration.Valid()
    modifies configuration
    ensures configuration.Valid() && fresh(configuration.Repr - old(configuration.Repr))
    ensures configuration.Value == Tree(configuration.name, configuration.text, old(configuration.Value.children) + F.SpringBootConfiguration().children)
  {
    AppendSpringBootImage(configuration);
    var _ := configuration.AppendNode("createdDate", Some("now"));
    var _ := configuration.AppendNode("skip", Some("false"));
  }

  method AppendSpringBootImage(configuration: Node)
    requires configuration.Valid()
    modifies configuration
    ensures configuration.Valid() && fresh(configuration.Repr - old(configuration.Repr))
    ensures configuration.Value == Tree(configuration.name, configuration.text, old(configuration.Value.children) + [F.SpringBootImage()])
  {
    ghost var kids := configuration.Value.children;
    var image := configuration.AppendNode("image", None);
    var _ := image.AppendNode("name", Some("${project.groupId}/${project.parent.artifactId}:${project.version}"));
    assert image.Value == F.SpringBootImage();
    configuration.Adopt(image, kids);
  }

  method AppendSpringBootExecutions(plugin: Node)
    requires plugin.Valid()
    modifies plugin
    ensures plugin.Valid() && fresh(plugin.Repr - old(plugin.Repr))
    ensures plugin.Value == Tree(plugin.name, plugin.text, old(plugin.Value.children) + [F.SpringBootExecutions()])
  {
    ghost var kids := plugin.Value.children;
    var executions := plugin.AppendNode("executions", None);
    AppendSpringBootExecution(executions);
    assert executions.Value == F.SpringBootExecutions();
    plugin.Adopt(executions, kids);
  }

  method AppendSpringBootExecution(executions: Node)
    requires executions.Valid()
    modifies executions
    ensures executions.Valid() && fresh(executions.Repr - old(executions.Repr))
    ensures executions.Value == Tree(executions.name, executions.text, old(executions.Value.children) + [F.SpringBootExecution()])
  {
    ghost var kids := executions.Value.children;
    var execution := executions.AppendNode("execution", None);
    SpringBootExecutionBlock(execution);
    assert execution.Value == F.SpringBootExecution();
    executions.Adopt(execution, kids);
  }

  method SpringBootExecutionBlock(execution: Node)
    requires execution.Valid()
    modifies execution
    ensures execution.Valid() && fresh(execution.Repr - old(execution.Repr))
    ensures execution.Value == Tree(execution.name, execution.text, old(execution.Value.children) + F.SpringBootExecution().children)
  {
    var _ := execution.AppendNode("phase", Some("install"));
    AppendGoals(execution, "build-image");
  }

  // ---- profiles ----

  method Profiles(root: Node)
    requires root.Valid()
    modifies root
    ensures root.Valid() && fresh(root.Repr - old(root.Repr))
    ensures root.Value == Tree(root.name, root.text, old(root.Value.children) + [F.Profiles()])
  {
    ghost var kids := root.Value.children;
    var profiles := root.AppendNode("profiles", None);
    AppendProfile(profiles);
    assert profiles.Value == F.Profiles();
    root.Adopt(profiles, kids);
  }

  method AppendProfile(profiles: Node)
    requires profiles.Valid()
    modifies profiles
    ensures profiles.Valid() && fresh(profiles.Repr - old(profiles.Repr))
    ensures profiles.Value == Tree(profiles.name, profiles.text, old(profiles.Value.children) + [F.Profile()])
  {
    ghost var kids := profiles.Value.children;
    var profile := profiles.AppendNode("profile", None);
    ProfileBlock(profile);
    assert profile.Value == F.Profile();
    profiles.Adopt(profile, kids);
  }

  method ProfileBlock(profile: Node)
    requires profile.Valid()
    modifies profile
    ensures profile.Valid() && fresh(profile.Repr - old(profile.Repr))
    ensures profile.Value == Tree(profile.name, profile.text, old(profile.Value.children) + F.Profile().children)
  {
    var _ := profile.AppendNode("id", Some("arch-aarch64"));
    AppendActivation(profile);
    AppendProfileProperties(profile);
  }

  /** `appendNode("activation").appendNode("os").appendNode("arch", "aarch64")`. */
  method AppendActivation(profile: Node)
    requires profile.Valid()
    modifies profile
    ensures profile.Valid() && fresh(profile.Repr - old(profile.Repr))
    ensures profile.Value == Tree(profile.name, profile.text, old(profile.Value.children) + [F.Activation()])
  {
    ghost var kids := profile.Value.children;
    var activation := profile.AppendNode("activation", None);
    AppendActivationOs(activation);
    assert activation.Value == F.Activation();
    profile.Adopt(activation, kids);
  }

  method AppendActivationOs(activation: Node)
    requires activation.Valid()
    modifies activation
    ensures activation.Valid() && fresh(activation.Repr - old(activation.Repr))
    ensures activation.Value == Tree(activation.name, activation.text, old(activation.Value.children) + [F.ActivationOs()])
  {
    ghost var kids := activation.Value.children;
    var os := activation.AppendNode("os", None);
    var _ := os.AppendNode("arch", Some("aarch64"));
    assert os.Value == F.ActivationOs();
    activation.Adopt(os, kids);
  }

  method AppendProfileProperties(profile: Node)
    requires profile.Valid()
    modifies profile
    ensures profile.Valid() && fresh(profile.Repr - old(profile.Repr))
    ensures profile.Value == Tree(profile.name, profile.text, old(profile.Value.children) + [F.ProfileProperties()])
  {
    ghost var kids := profile.Value.children;
    var properties := profile.AppendNode("properties", None);
    var _ := properties.AppendNode(F.ArchitectureProperty, Some("arm64"));
    assert properties.Value == F.ProfileProperties();
    profile.Adopt(properties, kids);
  }

}

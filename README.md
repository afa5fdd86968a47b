# lg5-spring parent POM, modelled in Dafny

The `lg5-spring-parent` project publishes one Maven publication, `parentJava`. Its POM is what
descendant services inherit:

- a Spring Boot `parent` block;
- `pom` packaging and the property `lg5.version = ${project.parent.version}`;
- a `build` section, with the avro, jib and spring-boot plugins under `pluginManagement/plugins` and
  the compiler, jacoco and checkstyle plugins under `plugins`;
- an `arch-aarch64` profile that switches the base image's architecture to `arm64`.

The POM is composed in two `pom.withXml` callbacks. They call `appendNode` on Groovy `Node`s, six Kotlin
extension functions that each append one plugin fragment, and `profiles()`. Of the project's publish tasks,
only those publishing `parentJava` may run.

This project models those parts.

- `Xml.Node` is a class for the mutable Groovy node. Its `AppendNode` adds a fresh child after the
  existing ones. A ghost `Value` of type `Trees.Tree` is the subtree the node denotes.
- `Builders` has one method per `appendNode(...).apply { ... }` block of the fragment builders and the
  `profiles` injector. Each method is proved to append exactly the subtree that its counterpart in
  `Fragments` describes, and nothing else. An `AppendX` method and its `XBlock` pair with `Fragments.X`.
  The six fragment builders keep the script's names; their counterparts drop `Maven` and `BuildImage`
  where the name has them: `MavenCompilerPlugin` pairs with `CompilerPlugin`, `MavenCheckstylePlugin`
  with `CheckstylePlugin`, `JibMavenPlugin` with
  `JibPlugin`, `SpringBootMavenBuildImagePlugin` with `SpringBootPlugin`.
- `Pom` records the publication's settings and callbacks in the class `MavenPom`, in the order the
  script registers them. `RunXmlActions` replays the callbacks on a root node.
  `BuildParentPom` proves that the finished root holds `parent`, `build` and `profiles` in that
  order, exactly as `Fragments.PomAdditions` describes them.
- `FragmentFacts` states what the appended subtrees hold, using the path queries of `Trees`
  (`At`, `TextAt`, `Names`, `Child`). It covers composition order, plugin order, each plugin's
  coordinates and executions, the fixed jacoco exclusions, and the profile overriding the very
  property the jib fragment refers to.
- `Publishing` models the `onlyIf` filter on `PublishToMavenLocal` and `PublishToMavenRepository`
  tasks. `Tasks` defines the publish tasks Gradle creates: one `PublishToMavenLocal` task per
  publication, and one `PublishToMavenRepository` task per publication and repository. `Allowed`
  defines which tasks run: those whose `onlyIf` condition holds. The gate lemmas are stated over
  these two definitions. They prove that a project with `parentJava` runs exactly the tasks of both
  kinds that publish `parentJava`. In the parent project (publications `library` and `parentJava`,
  repositories `mavenLocal()` and GitHub Packages) those are three tasks, and the three `library`
  tasks are skipped.
- `Catalog` holds the version-catalog entries the script reads, as a parameter `libs`.

The script sets `pom.packaging = "pom"`, Maven's packaging for parent and aggregator POMs.

## Model

| member | source | states |
|---|---|---|
| Xml.Node.constructor | lg5-spring-parent/build.gradle.kts:29-29 | a fresh node with the given name and text and no children, owning only itself |
| Xml.Node.AppendNode | lg5-spring-parent/build.gradle.kts:30-36 | appends one fresh, childless node with the given name and text after the existing children and returns it; the earlier children, the name and the text are unchanged |
| Builders.AppendCoordinates | lg5-spring-parent/build.gradle.kts:99-101 | appends exactly `groupId`, `artifactId`, `version` with the given texts (a version without text when the catalog has none), in that order |
| Builders.AppendGoals | lg5-spring-parent/build.gradle.kts:118-119 | appends one `goals` node holding a single `goal` with the given text |
| Builders.MavenCompilerPlugin | lg5-spring-parent/build.gradle.kts:96-106 | appends exactly one `plugin`: maven-compiler-plugin at the catalog version, with `configuration/release` "21" |
| Builders.JacocoPlugin | lg5-spring-parent/build.gradle.kts:108-130 | appends exactly one `plugin`: jacoco-maven-plugin, one `prepare-agent` execution, then the three exclusions |
| Builders.JacocoExecutionBlock | lg5-spring-parent/build.gradle.kts:117-120 | the execution receives `id` and then `goals` as siblings: the `goals` call inside `children().apply` binds to the enclosing execution |
| Builders.JacocoExcludesBlock | lg5-spring-parent/build.gradle.kts:124-128 | appends the three `exclude` patterns in script order |
| Builders.AvroPlugin | lg5-spring-parent/build.gradle.kts:132-159 | appends exactly one `plugin`: the catalog's avro plugin, its configuration and one `schema` execution in `generate-resources` |
| Builders.MavenCheckstylePlugin | lg5-spring-parent/build.gradle.kts:161-192 | appends exactly one `plugin`: the catalog's checkstyle plugin, the puppycrawl dependency and one `validate` execution |
| Builders.AppendCheckstyleDependency | lg5-spring-parent/build.gradle.kts:168-172 | appends one `dependency` with the puppycrawl catalog coordinates |
| Builders.JibMavenPlugin | lg5-spring-parent/build.gradle.kts:194-235 | appends exactly one `plugin`: the catalog's jib plugin, its `from` image and platform, and one `build-image` execution |
| Builders.JibPlatformBlock | lg5-spring-parent/build.gradle.kts:204-207 | the platform's architecture and os are the property references `${docker.from.image.platform.architecture}` and `${docker.from.image.platform.os}` |
| Builders.JibJvmFlagsBlock | lg5-spring-parent/build.gradle.kts:226-230 | appends the three `jvmFlag`s in script order |
| Builders.SpringBootMavenBuildImagePlugin | lg5-spring-parent/build.gradle.kts:237-257 | appends exactly one `plugin`: spring-boot-maven-plugin grouped with the parent, with no version, and its `install` execution |
| Builders.Profiles | lg5-spring-parent/build.gradle.kts:259-271 | appends exactly one `profiles` node holding the `arch-aarch64` profile |
| Pom.AppendParent | lg5-spring-parent/build.gradle.kts:28-37 | appends exactly the `parent` block: Spring Boot parent coordinates, then an empty `relativePath` |
| Pom.AppendBuild | lg5-spring-parent/build.gradle.kts:41-55 | appends exactly one `build` node: `pluginManagement` and then `plugins` |
| Pom.ManagedPluginsBlock | lg5-spring-parent/build.gradle.kts:44-48 | appends avro, jib and spring-boot plugins, in that order |
| Pom.BoundPluginsBlock | lg5-spring-parent/build.gradle.kts:49-54 | appends compiler, jacoco and checkstyle plugins, in that order |
| Pom.AppendBuildAndProfiles | lg5-spring-parent/build.gradle.kts:40-58 | the second callback appends `build` and then `profiles`, and nothing else |
| Pom.RunCallback | lg5-spring-parent/build.gradle.kts:28-58 | running one callback appends exactly what that callback's output describes |
| Pom.MavenPom.constructor | lg5-spring-parent/build.gradle.kts:24-25 | a new publication's POM has no packaging, no properties and no callbacks |
| Pom.MavenPom.WithXml | lg5-spring-parent/build.gradle.kts:28-28 | registers the callback after the earlier ones and changes nothing else |
| Pom.MavenPom.SetPackaging | lg5-spring-parent/build.gradle.kts:38-38 | sets the packaging and changes nothing else |
| Pom.MavenPom.PutProperty | lg5-spring-parent/build.gradle.kts:39-39 | adds or overwrites one property and changes nothing else |
| Pom.ConfigureParentJava | lg5-spring-parent/build.gradle.kts:24-58 | the callbacks are registered parent first and build second; packaging is "pom"; `lg5.version` maps to `${project.parent.version}`; other properties are kept |
| Pom.RunXmlActions | lg5-spring-parent/build.gradle.kts:28-58 | replaying the registered callbacks in order appends exactly the concatenation of their outputs |
| Pom.OutputConcat | lg5-spring-parent/build.gradle.kts:28-58 | the output of the callbacks of two lists run one after the other is the first list's output followed by the second's |
| Pom.ParentJavaOutput | lg5-spring-parent/build.gradle.kts:28-58 | the two callbacks of `parentJava` together output `parent`, `build`, `profiles` |
| Pom.BuildParentPom | lg5-spring-parent/build.gradle.kts:24-58 | the finished POM is `pom` packaged with only `lg5.version` among its properties, and its root `project` holds exactly parent, build and profiles |
| Pom.BuildTwice | lg5-spring-parent/build.gradle.kts:24-58 | composing the POM twice gives two distinct root nodes with equal content: the result depends only on the catalog |
| FragmentFacts.PomOrder | lg5-spring-parent/build.gradle.kts:28-58 | the root receives `parent`, `build`, `profiles` in that order; inside `build`, `pluginManagement` precedes `plugins` |
| FragmentFacts.ParentContent | lg5-spring-parent/build.gradle.kts:30-36 | `parent` holds groupId, artifactId and version from the catalog and an empty `relativePath`, and nothing else |
| FragmentFacts.ManagedPluginsPlace | lg5-spring-parent/build.gradle.kts:43-48 | `build/pluginManagement/plugins` is the managed plugin list |
| FragmentFacts.ManagedPluginsOrder | lg5-spring-parent/build.gradle.kts:44-48 | the managed plugins are three `plugin`s whose artifact ids are avro, jib and spring-boot-maven-plugin, in that order |
| FragmentFacts.BoundPluginsPlace | lg5-spring-parent/build.gradle.kts:49-54 | `build/plugins` is the bound plugin list |
| FragmentFacts.BoundPluginsOrder | lg5-spring-parent/build.gradle.kts:49-54 | the bound plugins are three `plugin`s whose artifact ids are maven-compiler-plugin, jacoco-maven-plugin and checkstyle, in that order |
| FragmentFacts.CompilerCoordinates | lg5-spring-parent/build.gradle.kts:98-101 | groupId org.apache.maven.plugins, artifactId maven-compiler-plugin, version from the catalog |
| FragmentFacts.CompilerRelease | lg5-spring-parent/build.gradle.kts:102-103 | `configuration/release` is "21" |
| FragmentFacts.JacocoCoordinates | lg5-spring-parent/build.gradle.kts:110-112 | groupId org.jacoco, artifactId jacoco-maven-plugin, version from the catalog |
| FragmentFacts.JacocoLayout | lg5-spring-parent/build.gradle.kts:109-129 | the plugin's children are coordinates, `executions` (holding one execution), then `configuration` |
| FragmentFacts.JacocoExecutionContent | lg5-spring-parent/build.gradle.kts:116-121 | the execution has exactly `id` and `goals`, no `phase`, id `prepare-agent` and goal `prepare-agent` |
| FragmentFacts.JacocoExcludesContent | lg5-spring-parent/build.gradle.kts:124-128 | exactly three `exclude`s: `**/AvroModel.`, `**/**.kafka.*`, `infrastructure/kafka/*` |
| FragmentFacts.JacocoExcludesFixed | lg5-spring-parent/build.gradle.kts:123-128 | the exclusions sit at `configuration/excludes` and are the same for every catalog |
| FragmentFacts.AvroCoordinates | lg5-spring-parent/build.gradle.kts:134-136 | coordinates are the catalog's avro plugin entry and the avro version |
| FragmentFacts.AvroConfigurationContent | lg5-spring-parent/build.gradle.kts:139-142 | `stringType` is `String` and `enableDecimalLogicalType` is `true` |
| FragmentFacts.AvroSingleExecution | lg5-spring-parent/build.gradle.kts:144-157 | `executions` holds exactly one execution |
| FragmentFacts.AvroExecutionContent | lg5-spring-parent/build.gradle.kts:145-156 | phase `generate-resources`, goal `schema`, sources from `src/main/resources/avro` to `src/main/java` |
| FragmentFacts.CheckstyleCoordinates | lg5-spring-parent/build.gradle.kts:163-165 | coordinates, version included, are the catalog's checkstyle plugin entry |
| FragmentFacts.CheckstyleDependencyContent | lg5-spring-parent/build.gradle.kts:167-172 | `dependencies/dependency` carries the catalog's puppycrawl tools coordinates |
| FragmentFacts.CheckstyleSingleExecution | lg5-spring-parent/build.gradle.kts:174-190 | `executions` holds exactly one execution |
| FragmentFacts.CheckstyleExecutionContent | lg5-spring-parent/build.gradle.kts:177-180 | id and phase `validate`, goal `check` |
| FragmentFacts.CheckstyleConfigurationContent | lg5-spring-parent/build.gradle.kts:183-188 | `failsOnError` is `true` and `violationSeverity` is `warning` |
| FragmentFacts.JibCoordinates | lg5-spring-parent/build.gradle.kts:196-198 | coordinates, version included, are the catalog's jib plugin entry |
| FragmentFacts.JibArchitecture | lg5-spring-parent/build.gradle.kts:200-205 | `configuration/from/platforms/platform/architecture` is `${docker.from.image.platform.architecture}` |
| FragmentFacts.SpringBootCoordinates | lg5-spring-parent/build.gradle.kts:238-240 | the groupId equals the `parent` block's groupId, the artifactId is spring-boot-maven-plugin, and there is no `version` |
| FragmentFacts.SpringBootExecutionContent | lg5-spring-parent/build.gradle.kts:249-254 | the execution runs `build-image` in phase `install` |
| FragmentFacts.ProfileIdentity | lg5-spring-parent/build.gradle.kts:260-267 | one profile, id `arch-aarch64`, activated when the os arch is `aarch64` |
| FragmentFacts.ProfilePropertiesContent | lg5-spring-parent/build.gradle.kts:268-269 | the profile sets exactly one property, `docker.from.image.platform.architecture`, to `arm64` |
| FragmentFacts.ProfileOverridesJibArchitecture | lg5-spring-parent/build.gradle.kts:259-270 | the property the profile sets is the one whose reference the jib fragment uses for the base image's architecture |
| Publishing.OnlyIf | lg5-spring-parent/build.gradle.kts:61-70 | a task may run exactly when it publishes `parentJava`; the lookup fails (no verdict) exactly when the project has no `parentJava` |
| Publishing.SameForEveryKind | lg5-spring-parent/build.gradle.kts:61-70 | the filter on `PublishToMavenLocal` and the one on `PublishToMavenRepository` give the same verdict for every publication, whatever the repository |
| Publishing.OnlyParentJavaPublished | lg5-spring-parent/build.gradle.kts:61-70 | in any project with `parentJava`, whatever its other publications and repositories, the tasks that run are exactly its tasks of both kinds that publish `parentJava`: the local one and one per repository |
| Publishing.ParentProjectGate | build.gradle.kts:13-26 | in the parent project (publications `library` and `parentJava`, repositories `mavenLocal()` and GitHub Packages), exactly three `parentJava` tasks run: to the local Maven cache, to `MavenLocal` and to GitHub Packages; the three `library` tasks exist and are skipped |

## Left out

- The Java sources of `lg5-spring-testcontainers` (the testcontainers helpers `ConfluentKafkaContainerCustomConfig` and `WiremockUIContainerCustomConfig`) are not part of this model. They start containers and change Spring property sources, which has nothing to do with the parent POM.
- The rest of the root and `lg5-jvm-test` build scripts is left out. From the root script the model keeps only the `library` publication name and the names of the two publishing repositories.
- The Gradle wiring of the parent script outside the POM is left out: plugins, dependencies, Kotlin compiler options, the jar task, `mavenCentral()` and the `java` component.
- Much of the POM is produced by Gradle itself and is left out: `modelVersion`, coordinates, dependencies, and where its generator writes `packaging` and `properties`. The model keeps packaging and properties as fields of `MavenPom`, and the root node starts without children.
- `Xml.Node` omits attributes and the parent pointer, which the script never uses. The text is `Option<string>`; the Integer `21` of `release` is modelled as the text "21" that Groovy writes.
- XML serialisation is left out, as is Maven's later expansion of `${...}` references: property references are kept as plain text.
- Evaluation of profile activation (the host's os arch) happens at Maven build time and is not modelled.
- The version catalog is a parameter `libs`, not loaded from a file. A missing catalog entry makes Gradle fail before any node is appended, which is not modelled. A catalog library without a version gives a `version` node without text.
- Publications are identified by name: within one project's container names are unique, so the object comparison of the filter becomes name equality.
- The repository a `PublishToMavenRepository` task targets is modelled only by its name. The URL and the credentials are left out, because the filter ignores them. Repository names are Gradle's defaults for `mavenLocal()` and an unnamed `maven { }`.

/** The entries of the Gradle version catalog (`libs`) that the parent POM reads, passed in as one record. */
module Catalog {
  import opened Wrappers

  /** A library alias: `libs.x.get()` gives its group, its name (the artifact id) and its version,
      which Gradle reports as absent when the alias declares none. */
  datatype Library = Library(group: string, name: string, version: Option<string>)

  datatype Libs = Libs(
    springbootParent: Library,          // libs.springboot.parent
    springbootVersion: string,          // libs.versions.springboot.version
    mavenCompilerPluginVersion: string, // libs.versions.maven.compiler.plugin.version
    jacocoVersion: string,              // libs.versions.jacoco.version
    avroPlugin: Library,                // libs.avro.plugin
    avroVersion: string,                // libs.versions.avro.version
    checkstylePlugin: Library,          // libs.checkstyle.plugin
    puppycrawlTools: Library,           // libs.puppycrawl.tools
    jibPlugin: Library                  // libs.jib.plugin
  )
}

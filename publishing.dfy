/** The publish-task filter of lg5-spring-parent/build.gradle.kts: every `PublishToMavenLocal` and every
    `PublishToMavenRepository` task of the project runs only if it publishes `parentJava`. */
module Publishing {
  import opened Wrappers

  /** The two task types the filter is registered on. Gradle creates one `PublishToMavenLocal` task per
      publication, and one `PublishToMavenRepository` task per publication and declared repository. */
  datatype TaskKind = PublishToMavenLocal | PublishToMavenRepository(repository: string)

  /** A publish task and the name of the publication it publishes. Publications in one project's
      container have distinct names, so the name identifies the object; likewise for repositories. */
  datatype PublishTask = PublishTask(kind: TaskKind, publication: string)

  /** The publication the parent POM is published as. */
  const ParentJava: string := "parentJava"

  /** The publication every subproject gets from the root build script. */
  const LibraryPublication: string := "library"

  /** The publications of the parent project: `library` from the root build script and `parentJava`
      from its own. */
  const ParentProjectPublications: set<string> := {LibraryPublication, ParentJava}

  /** `mavenLocal()` of the root build script, under the name Gradle gives it by default. */
  const MavenLocalRepository: string := "MavenLocal"

  /** The GitHub Packages repository of the root build script, declared by `maven { ... }` without a
      name, so Gradle names it `maven`. */
  const GitHubPackagesRepository: string := "maven"

  /** The repositories every subproject declares in the root build script. */
  const ParentProjectRepositories: set<string> := {MavenLocalRepository, GitHubPackagesRepository}

  /** `onlyIf { publication == publishing.publications["parentJava"] }` for a task of a project whose
      publication container holds `publications`: `None` when the lookup of `parentJava` fails (Gradle
      then fails the task), otherwise whether the task may run. */
  function OnlyIf(task: PublishTask, publications: set<string>): (r: Option<bool>)
    ensures r.None? <==> ParentJava !in publications
    ensures r == Some(true) <==> ParentJava in publications && task.publication == ParentJava
    ensures r == Some(false) <==> ParentJava in publications && task.publication != ParentJava
  {
    if ParentJava in publications then Some(task.publication == ParentJava) else None
  }

  /** Every publish task of a project with these publications and repositories: this is the task set
      the gate lemmas below are stated over. */
  function Tasks(publications: set<string>, repositories: set<string>): set<PublishTask> {
    (set p | p in publications :: PublishTask(PublishToMavenLocal, p))
      + (set p, r | p in publications && r in repositories :: PublishTask(PublishToMavenRepository(r), p))
  }

  /** Gradle's reading of `onlyIf`: the tasks that run are the ones whose condition holds; every other
      task is skipped. */
  function Allowed(tasks: set<PublishTask>, publications: set<string>): set<PublishTask> {
    set t | t in tasks && OnlyIf(t, publications) == Some(true)
  }

  /** The filter reads only the publication, never the kind of task or its repository. */
  lemma SameForEveryKind(p: string, publications: set<string>, repository: string)
    ensures OnlyIf(PublishTask(PublishToMavenLocal, p), publications)
         == OnlyIf(PublishTask(PublishToMavenRepository(repository), p), publications)
  {
  }

  /** Whatever other publications and repositories a project has, once it has `parentJava` the tasks
      that run are exactly its tasks publishing `parentJava`: the one to the local Maven cache and one
      per repository. */
  lemma OnlyParentJavaPublished(publications: set<string>, repositories: set<string>)
    requires ParentJava in publications
    ensures forall t :: t in Allowed(Tasks(publications, repositories), publications)
                    <==> t in Tasks(publications, repositories) && t.publication == ParentJava
    ensures PublishTask(PublishToMavenLocal, ParentJava) in Allowed(Tasks(publications, repositories), publications)
    ensures forall r :: r in repositories
              ==> PublishTask(PublishToMavenRepository(r), ParentJava) in Allowed(Tasks(publications, repositories), publications)
  {
    var tasks := Tasks(publications, repositories);
    assert PublishTask(PublishToMavenLocal, ParentJava) in tasks;
    forall r | r in repositories
      ensures PublishTask(PublishToMavenRepository(r), ParentJava) in Allowed(tasks, publications)
    {
      assert PublishTask(PublishToMavenRepository(r), ParentJava) in tasks;
    }
  }

  /** In the parent project exactly three tasks run (`parentJava` to the local Maven cache, to the
      `MavenLocal` repository and to GitHub Packages), and the three `library` tasks are skipped. */
  lemma ParentProjectGate()
    ensures Allowed(Tasks(ParentProjectPublications, ParentProjectRepositories), ParentProjectPublications)
         == {PublishTask(PublishToMavenLocal, ParentJava),
             PublishTask(PublishToMavenRepository(MavenLocalRepository), ParentJava),
             PublishTask(PublishToMavenRepository(GitHubPackagesRepository), ParentJava)}
    ensures PublishTask(PublishToMavenLocal, LibraryPublication) in Tasks(ParentProjectPublications, ParentProjectRepositories)
    ensures forall r :: r in ParentProjectRepositories
              ==> PublishTask(PublishToMavenRepository(r), LibraryPublication) in Tasks(ParentProjectPublications, ParentProjectRepositories)
    ensures OnlyIf(PublishTask(PublishToMavenLocal, LibraryPublication), ParentProjectPublications) == Some(false)
    ensures forall r :: OnlyIf(PublishTask(PublishToMavenRepository(r), LibraryPublication), ParentProjectPublications) == Some(false)
  {
    var tasks := Tasks(ParentProjectPublications, ParentProjectRepositories);
    var expected := {PublishTask(PublishToMavenLocal, ParentJava),
                     PublishTask(PublishToMavenRepository(MavenLocalRepository), ParentJava),
                     PublishTask(PublishToMavenRepository(GitHubPackagesRepository), ParentJava)};
    OnlyParentJavaPublished(ParentProjectPublications, ParentProjectRepositories);
    forall t | t in Allowed(tasks, ParentProjectPublications) ensures t in expected {
      assert t in tasks && t.publication == ParentJava;
      assert t.kind.PublishToMavenRepository? ==> t.kind.repository in ParentProjectRepositories;
    }
    assert PublishTask(PublishToMavenLocal, LibraryPublication) in tasks;
    forall r | r in ParentProjectRepositories
      ensures PublishTask(PublishToMavenRepository(r), LibraryPublication) in tasks
    {
    }
  }
}

/** The table-driven tests of the kubeconfig package and of the picker
    ordering, replayed against the model. */
module Scenarios {
  import opened Kubeconfig
  import Ui
  import StringOrder

  /** The test fixture: three contexts, where context1 and context3 share
      cluster1 and user1, and context2 alone uses cluster2 and user2. */
  function Fixture(): Document
  {
    Document(
      "context1",
      map[
        "context1" := Context("cluster1", "user1", "namespace1"),
        "context2" := Context("cluster2", "user2", ""),
        "context3" := Context("cluster1", "user1", "namespace3")],
      map[
        "cluster1" := Cluster("https://cluster1.example.com"),
        "cluster2" := Cluster("https://cluster2.example.com")],
      map["user1" := AuthInfo("token1"), "user2" := AuthInfo("token2")])
  }

  /** The switch table runs on one shared file: its "same context" case
      comes after the switch to context2, so it switches back to context1.
      Switching to the context that is already current is stated apart. */
  lemma SwitchScenarios()
    ensures Switched(Fixture(), "context2") == Ok(Fixture().(currentContext := "context2"))
    ensures Switched(Fixture(), "nonexistent") == Err(ContextNotFound("nonexistent"))
    ensures Switched(Switched(Fixture(), "context2").value, "context1") == Ok(Fixture())
    ensures Switched(Fixture(), "context1") == Ok(Fixture())
  {
  }

  /** Deleting context2, whose cluster and credentials nobody else uses,
      removes them; the current context stays. */
  lemma DeleteExclusiveScenario()
    ensures Deleted(Fixture(), "context2").Ok?
    ensures var e := Deleted(Fixture(), "context2").value;
      && e.currentContext == "context1"
      && e.contexts.Keys == {"context1", "context3"}
      && e.clusters.Keys == {"cluster1"}
      && e.authInfos.Keys == {"user1"}
  {
    var e := Deleted(Fixture(), "context2").value;
    assert ClusterReferenced(e.contexts, "cluster1") by {
      assert e.contexts["context1"].cluster == "cluster1";
    }
    assert AuthInfoReferenced(e.contexts, "user1") by {
      assert e.contexts["context1"].authInfo == "user1";
    }
  }

  /** Deleting the current context1 unsets the current context and keeps
      cluster1 and user1, which context3 still uses. */
  lemma DeleteCurrentScenario()
    ensures Deleted(Fixture(), "context1").Ok?
    ensures var e := Deleted(Fixture(), "context1").value;
      && e.currentContext == ""
      && e.contexts.Keys == {"context2", "context3"}
      && e.clusters == Fixture().clusters
      && e.authInfos == Fixture().authInfos
  {
    var e := Deleted(Fixture(), "context1").value;
    assert ClusterReferenced(e.contexts, "cluster1") by {
      assert e.contexts["context3"].cluster == "cluster1";
    }
    assert AuthInfoReferenced(e.contexts, "user1") by {
      assert e.contexts["context3"].authInfo == "user1";
    }
  }

  /** Deleting context3 keeps cluster1 and user1, which context1 still
      uses, and the current context. */
  lemma DeleteSharedScenario()
    ensures Deleted(Fixture(), "context3").Ok?
    ensures var e := Deleted(Fixture(), "context3").value;
      && e.currentContext == "context1"
      && e.contexts.Keys == {"context1", "context2"}
      && e.clusters == Fixture().clusters
      && e.authInfos == Fixture().authInfos
  {
    var e := Deleted(Fixture(), "context3").value;
    assert ClusterReferenced(e.contexts, "cluster1") by {
      assert e.contexts["context1"].cluster == "cluster1";
    }
    assert AuthInfoReferenced(e.contexts, "user1") by {
      assert e.contexts["context1"].authInfo == "user1";
    }
  }

  lemma DeleteMissingScenario()
    ensures Deleted(Fixture(), "nonexistent") == Err(ContextNotFound("nonexistent"))
  {
  }

  lemma NamespaceScenarios()
    ensures GetCurrentNamespace(Fixture()) == Ok("namespace1")
    ensures GetNamespaceForContext(Fixture(), "context2") == Ok("default")
    ensures GetNamespaceForContext(Fixture(), "nonexistent") == Err(ContextNotFound("nonexistent"))
    ensures GetCurrentNamespace(Fixture().(currentContext := "context2")) == Ok("default")
  {
  }

  /** The SetNamespaceForContext table, run in order on one shared file:
      context2 by name, a missing name, then the current context1 through
      the empty name. */
  lemma SetNamespaceForContextScenarios()
    ensures WithNamespace(Fixture(), "context2", "new-namespace").Ok?
    ensures var d1 := WithNamespace(Fixture(), "context2", "new-namespace").value;
      && GetNamespaceForContext(d1, "context2") == Ok("new-namespace")
      && WithNamespace(d1, "nonexistent", "new-namespace") == Err(ContextNotFound("nonexistent"))
      && Switched(d1, "context1") == Ok(d1)
      && WithNamespace(d1, "", "current-namespace").Ok?
      && GetNamespaceForContext(WithNamespace(d1, "", "current-namespace").value, "context1")
         == Ok("current-namespace")
  {
  }

  /** Three contexts on one cluster X: deleting A and B keeps X, which C
      still uses; deleting C afterwards removes it. */
  lemma SharedClusterScenario()
    ensures var d0 := Document("A",
              map["A" := Context("X", "", ""), "B" := Context("X", "", ""), "C" := Context("X", "", "")],
              map["X" := Cluster("https://x.example.com")], map[]);
      && Deleted(d0, "A").Ok?
      && Deleted(Deleted(d0, "A").value, "B").Ok?
      && "X" in Deleted(Deleted(d0, "A").value, "B").value.clusters
      && Deleted(Deleted(Deleted(d0, "A").value, "B").value, "C").Ok?
      && "X" !in Deleted(Deleted(Deleted(d0, "A").value, "B").value, "C").value.clusters
  {
    var d0 := Document("A",
      map["A" := Context("X", "", ""), "B" := Context("X", "", ""), "C" := Context("X", "", "")],
      map["X" := Cluster("https://x.example.com")], map[]);
    var d1 := Deleted(d0, "A").value;
    assert ClusterReferenced(d1.contexts, "X") by {
      assert d1.contexts["B"].cluster == "X";
    }
    var d2 := Deleted(d1, "B").value;
    assert ClusterReferenced(d2.contexts, "X") by {
      assert d2.contexts["C"].cluster == "X";
    }
    var d3 := Deleted(d2, "C").value;
    assert d3.contexts == map[];
  }

  /** The same edits through the Config object: set the namespace of the
      current context, then delete it. */
  method ConfigScenario()
    returns (written: Result<string>, cleared: Result<string>, first: Outcome, afterDelete: Document,
             again: Outcome)
    ensures written == Ok("new-namespace")
    ensures cleared == Ok("default")
    ensures first == Pass
    ensures afterDelete.currentContext == ""
    ensures afterDelete.contexts.Keys == {"context2", "context3"}
    ensures afterDelete.clusters == Fixture().clusters
    ensures again == Fail(ContextNotFound("context1"))
  {
    var config := new Config(Fixture());
    var outcome := config.SetNamespace("new-namespace");
    assert outcome == Pass;
    written := GetCurrentNamespace(config.Snapshot());
    outcome := config.SetNamespace("");
    cleared := GetCurrentNamespace(config.Snapshot());
    first := config.DeleteContext("context1");
    assert ClusterReferenced(config.contexts, "cluster1") by {
      assert config.contexts["context3"].cluster == "cluster1";
    }
    afterDelete := config.Snapshot();
    again := config.DeleteContext("context1");
  }

  // The picker ordering of the ui tests.

  lemma OrderWithoutPriorityScenario()
    ensures Ui.Order(["zebra", "alpha", "beta"], "beta", false) == ["alpha", "beta", "zebra"]
  {
    Ui.OrderCharacterized(["zebra", "alpha", "beta"], "beta", false, ["alpha", "beta", "zebra"]);
  }

  lemma OrderWithPriorityScenario()
    ensures Ui.Order(["zebra", "alpha", "beta"], "beta", true) == ["beta", "alpha", "zebra"]
  {
    assert "beta" in ["zebra", "alpha", "beta"];
    Ui.OrderCharacterized(["zebra", "alpha", "beta"], "beta", true, ["beta", "alpha", "zebra"]);
  }

  lemma OrderCurrentAbsentScenario()
    ensures Ui.Order(["alpha", "beta", "gamma"], "delta", true) == ["alpha", "beta", "gamma"]
  {
    Ui.OrderCharacterized(["alpha", "beta", "gamma"], "delta", true, ["alpha", "beta", "gamma"]);
  }

  lemma OrderSingleScenario()
    ensures Ui.Order(["single"], "single", true) == ["single"]
  {
    Ui.OrderCharacterized(["single"], "single", true, ["single"]);
  }

  lemma OrderEmptyCurrentScenario()
    ensures Ui.Order(["alpha", "beta", "gamma"], "", true) == ["alpha", "beta", "gamma"]
  {
    Ui.OrderCharacterized(["alpha", "beta", "gamma"], "", true, ["alpha", "beta", "gamma"]);
  }

  lemma OrderCurrentFirstScenario()
    ensures Ui.Order(["alpha", "beta", "gamma", "delta"], "alpha", true) == ["alpha", "beta", "delta", "gamma"]
  {
    assert "alpha" in ["alpha", "beta", "gamma", "delta"];
    assert StringOrder.AtMost("beta", "delta") && StringOrder.AtMost("beta", "gamma")
      && StringOrder.AtMost("delta", "gamma");
    assert StringOrder.Sorted(["beta", "delta", "gamma"]);
    assert multiset(["alpha", "beta", "delta", "gamma"]) == multiset(["alpha", "beta", "gamma", "delta"]);
    Ui.OrderCharacterized(["alpha", "beta", "gamma", "delta"], "alpha", true, ["alpha", "beta", "delta", "gamma"]);
  }

  lemma OrderEmptyScenario()
    ensures Ui.Order([], "", true) == []
  {
  }

  lemma OrderCurrentLastScenario()
    ensures Ui.Order(["alpha", "beta", "gamma", "delta"], "delta", true) == ["delta", "alpha", "beta", "gamma"]
  {
    assert "delta" in ["alpha", "beta", "gamma", "delta"];
    assert StringOrder.AtMost("alpha", "beta") && StringOrder.AtMost("alpha", "gamma")
      && StringOrder.AtMost("beta", "gamma");
    assert StringOrder.Sorted(["alpha", "beta", "gamma"]);
    assert multiset(["delta", "alpha", "beta", "gamma"]) == multiset(["alpha", "beta", "gamma", "delta"]);
    Ui.OrderCharacterized(["alpha", "beta", "gamma", "delta"], "delta", true, ["delta", "alpha", "beta", "gamma"]);
  }
}

/** Exactly which of its objects Deploy leaves, whatever fails, and what those it has created say. */
module Created {
  import opened Types
  import opened Config
  import opened Labels
  import opened Version
  import opened Proxy

  predicate SecretSays(data: map<string, string>, text: string) { data == map["oauth2_proxy.cfg" := text] }

  predicate DeploymentSays(d: Deployment, sso: Sso, app: string, text: string) {
    && d.labels == map["app" := app, "sso" := sso.name]
    && d.containers ==
       [Container(sso.DeploymentId().name, [EnvVar("SECRET_VERSION", Digest("oauth2_proxy.cfg" + text))])]
  }

  predicate ServiceSays(s: Service, sso: Sso, app: string) {
    var issuer := sso.spec.certIssuer;
    && s.labels == map["app" := app, "sso" := sso.name] && s.port == 80
    && s.annotations == map[
         "fabric8.io/expose" := "true",
         "fabric8.io/ingress.name" := app,
         "fabric8.io/ingress.annotations" := "kubernetes.io/ingress.class: nginx" +
           if issuer == "" then ""
           else "\ncertmanager.k8s.io/issuer: " + issuer + "\ncert-manager.io/issuer: " + issuer]
  }

  lemma ServiceLeaves(p: Proxies, sso: Sso, app: string, o: Oracle)
    ensures var q := ServiceEffect(p, sso, app, o).store;
            && q == p.(services := q.services)
            && (sso.Id() in q.services <==> sso.Id() in p.services || CreateService !in o.faults)
            && (sso.Id() in q.services && sso.Id() !in p.services ==> ServiceSays(q.services[sso.Id()], sso, app))
  {
  }

  lemma DeploymentLeaves(p: Proxies, sso: Sso, app: string, text: string, o: Oracle)
    ensures var q := DeploymentEffect(p, sso, app, SecretVersion(text), o).store;
            && q.secrets == p.secrets
            && (sso.DeploymentId() in q.deployments <==>
                  sso.DeploymentId() in p.deployments || CreateDeployment !in o.faults)
            && (sso.DeploymentId() in q.deployments && sso.DeploymentId() !in p.deployments ==>
                  DeploymentSays(q.deployments[sso.DeploymentId()], sso, app, text))
            && (sso.Id() in q.services <==>
                  sso.Id() in p.services || (CreateDeployment !in o.faults && CreateService !in o.faults))
            && (sso.Id() in q.services && sso.Id() !in p.services ==> ServiceSays(q.services[sso.Id()], sso, app))
  {
    var d := DeploymentFor(sso, app, SecretVersion(text));
    var q := p.(deployments := CreateIn(p.deployments, sso.DeploymentId(), d, CreateDeployment, o.faults).store);
    ServiceLeaves(q, sso, app, o);
  }

  /** The objects are there that were, or are created before the first call at fault. */
  predicate Leaves(p: Proxies, q: Proxies, sso: Sso, app: string, text: string, faults: set<Call>) {
    && (sso.SecretId() in q.secrets <==> sso.SecretId() in p.secrets || CreateSecret !in faults)
    && (sso.SecretId() in q.secrets && sso.SecretId() !in p.secrets ==> SecretSays(q.secrets[sso.SecretId()], text))
    && (sso.DeploymentId() in q.deployments <==>
          sso.DeploymentId() in p.deployments || (CreateSecret !in faults && CreateDeployment !in faults))
    && (sso.DeploymentId() in q.deployments && sso.DeploymentId() !in p.deployments ==>
          DeploymentSays(q.deployments[sso.DeploymentId()], sso, app, text))
    && (sso.Id() in q.services <==>
          || sso.Id() in p.services
          || (CreateSecret !in faults && CreateDeployment !in faults && CreateService !in faults))
    && (sso.Id() in q.services && sso.Id() !in p.services ==> ServiceSays(q.services[sso.Id()], sso, app))
  }

  lemma CreateLeaves(p: Proxies, sso: Sso, app: string, text: string, o: Oracle)
    ensures var e := CreateEffect(p, sso, app, text, o);
            Leaves(p, e.store, sso, app, text, o.faults)
  {
    var secrets := CreateIn(p.secrets, sso.SecretId(), map[CONFIG_FILE := text], CreateSecret, o.faults);
    if Fails(secrets.error) {
      assert CreateEffect(p, sso, app, text, o).store == p;
    } else {
      var q := p.(secrets := secrets.store);
      DeploymentLeaves(q, sso, app, text, o);
      assert CreateEffect(p, sso, app, text, o) == DeploymentEffect(q, sso, app, SecretVersion(text), o);
    }
  }

  lemma CreateAnswers(p: Proxies, sso: Sso, app: string, text: string, o: Oracle)
    ensures CreateEffect(p, sso, app, text, o).result.Ok? ==> CreateEffect(p, sso, app, text, o).result.value == app
  {
  }

  /** The upstream is found both times and the issuer is served over HTTPS. */
  predicate Prepares(services: map<Key, Service>, sso: Sso, faults: set<Call>) {
    && ListForAppName !in faults && ListForUpstream !in faults
    && Key(sso.ns, sso.spec.upstream) in services && "https://" <= sso.spec.issuerURL
  }

  /**
   * Deploy creates of what is missing a secret with the client's configuration alone, a deployment that carries the
   * version of that text, and a service for the expose job, up to the first call at fault.
   */
  lemma DeployLeaves(p: Proxies, sso: Sso, client: Client, key: string, o: Oracle)
    requires client.redirectURIs != []
    ensures var e := DeployEffect(p, sso, client, key, o);
            if Prepares(p.services, sso, o.faults) then
              var upstream := p.services[Key(sso.ns, sso.spec.upstream)];
              var app := AppName(sso.spec.upstream, upstream.labels, o.appFirst);
              var text := Render(ConfigFor(sso.spec, client, client.redirectURIs[0], upstream.port, key));
              Leaves(p, e.store, sso, app, text, o.faults) && (e.result.Ok? ==> e.result.value == app)
            else e.store == p && e.result.Err?
  {
    if Prepares(p.services, sso, o.faults) {
      var upstream := p.services[Key(sso.ns, sso.spec.upstream)];
      var text := Render(ConfigFor(sso.spec, client, client.redirectURIs[0], upstream.port, key));
      CreateLeaves(p, sso, AppName(sso.spec.upstream, upstream.labels, o.appFirst), text, o);
      CreateAnswers(p, sso, AppName(sso.spec.upstream, upstream.labels, o.appFirst), text, o);
    }
  }
}
